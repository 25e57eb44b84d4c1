/** The wake-up of the write-back flusher: setters that push the dirty set over the batch size leave a
    token in a one-place channel, without blocking; the flusher waits for a token or a tick. Every
    interleaving of any number of setters is a run. */
module FlushWakeup {

  /** Between releasing the lock and the threshold test, or at the non-blocking send. */
  datatype Setter = Wrote(dirtyLen: nat) | Sending

  datatype Flusher = Waiting | Woken | Writing

  datatype State = State(dirty: map<string, string>, token: bool, setters: map<nat, Setter>, flusher: Flusher)

  datatype Action =
    | Put(p: nat, key: string, value: string) | Test(p: nat) | Send(p: nat)
    | TakeToken | Tick | Snapshot | Finish | FlushNow

  predicate Enabled(s: State, a: Action)
  {
    match a
    case Put(p, _, _) => p !in s.setters
    case Test(p) => p in s.setters && s.setters[p].Wrote?
    case Send(p) => p in s.setters && s.setters[p].Sending?
    case TakeToken => s.flusher.Waiting? && s.token
    case Tick => s.flusher.Waiting?
    case Snapshot => s.flusher.Woken?
    case Finish => s.flusher.Writing?
    case FlushNow => true
  }

  function Step(s: State, a: Action, batchSize: int): (r: State)
    requires Enabled(s, a)
  {
    match a
    case Put(p, k, v) =>
      var dirty := s.dirty[k := v];
      s.(dirty := dirty, setters := s.setters[p := Wrote(|dirty|)])
    case Test(p) =>
      s.(setters := if s.setters[p].dirtyLen >= batchSize then s.setters[p := Sending] else s.setters - {p})
    case Send(p) => s.(token := true, setters := s.setters - {p})
    case TakeToken => s.(token := false, flusher := Woken)
    case Tick => s.(flusher := Woken)
    case Snapshot => if |s.dirty| == 0 then s.(flusher := Waiting) else s.(dirty := map[], flusher := Writing)
    case Finish => s.(flusher := Waiting)
    case FlushNow => s.(dirty := map[])
  }

  const START: State := State(map[], false, map[], Waiting)

  predicate Possible(s: State, actions: seq<Action>, batchSize: int)
    decreases |actions|
  {
    actions == [] || (Enabled(s, actions[0]) && Possible(Step(s, actions[0], batchSize), actions[1..], batchSize))
  }

  function Run(s: State, actions: seq<Action>, batchSize: int): (r: State)
    requires Possible(s, actions, batchSize)
    decreases |actions|
  {
    if actions == [] then s else Run(Step(s, actions[0], batchSize), actions[1..], batchSize)
  }

  /** A batch is waiting. */
  predicate Due(s: State, batchSize: int)
  {
    |s.dirty| > 0 && |s.dirty| >= batchSize
  }

  predicate WillSend(x: Setter, batchSize: int)
  {
    x.Sending? || x.dirtyLen >= batchSize
  }

  predicate SomeWillSend(s: State, batchSize: int)
  {
    exists p | p in s.setters :: WillSend(s.setters[p], batchSize)
  }

  /** A token is pending, or a setter is about to send one, or the flusher is awake and has not yet taken
      its snapshot. */
  predicate WakeupOnTheWay(s: State, batchSize: int)
  {
    s.token || s.flusher.Woken? || SomeWillSend(s, batchSize)
  }

  predicate NoneLost(s: State, batchSize: int)
  {
    Due(s, batchSize) ==> WakeupOnTheWay(s, batchSize)
  }

  lemma StepKeepsNoneLost(s: State, a: Action, batchSize: int)
    requires NoneLost(s, batchSize) && Enabled(s, a)
    ensures NoneLost(Step(s, a, batchSize), batchSize)
  {
    var t := Step(s, a, batchSize);
    if Due(t, batchSize) {
      match a
      case Put(p, k, v) =>
        assert WillSend(t.setters[p], batchSize);
      case Test(p) =>
        if !s.token && !s.flusher.Woken? {
          var q :| q in s.setters && WillSend(s.setters[q], batchSize);
          assert q in t.setters && WillSend(t.setters[q], batchSize);
        }
      case _ =>
    }
  }

  lemma {:induction false} RunKeepsNoneLost(s: State, actions: seq<Action>, batchSize: int)
    requires NoneLost(s, batchSize) && Possible(s, actions, batchSize)
    ensures NoneLost(Run(s, actions, batchSize), batchSize)
    decreases |actions|
  {
    if actions != [] {
      StepKeepsNoneLost(s, actions[0], batchSize);
      RunKeepsNoneLost(Step(s, actions[0], batchSize), actions[1..], batchSize);
    }
  }

  /** No lost wake-up: in every interleaving, whenever the dirty set has reached the batch size, a wake-up is
      on its way. */
  lemma NoWakeupIsLost(actions: seq<Action>, batchSize: int)
    requires Possible(START, actions, batchSize)
    ensures var s := Run(START, actions, batchSize); Due(s, batchSize) ==> WakeupOnTheWay(s, batchSize)
  {
    RunKeepsNoneLost(START, actions, batchSize);
  }

  // ----- what waits, and what wakes -----

  /** The pairs put since the dirty set was last handed over. */
  function Unflushed(actions: seq<Action>): (t: map<string, string>)
  {
    if actions == [] then map[]
    else
      var n := |actions| - 1;
      match actions[n]
      case Put(_, k, v) => Unflushed(actions[..n])[k := v]
      case Snapshot => map[]
      case FlushNow => map[]
      case _ => Unflushed(actions[..n])
  }

  lemma {:induction false} RunSnoc(s: State, actions: seq<Action>, batchSize: int)
    requires actions != [] && Possible(s, actions, batchSize)
    ensures var n := |actions| - 1;
            && Possible(s, actions[..n], batchSize) && Enabled(Run(s, actions[..n], batchSize), actions[n])
            && Run(s, actions, batchSize) == Step(Run(s, actions[..n], batchSize), actions[n], batchSize)
    decreases |actions|
  {
    var n := |actions| - 1;
    if n > 0 {
      RunSnoc(Step(s, actions[0], batchSize), actions[1..], batchSize);
      assert actions[..n][1..] == actions[1..][..n - 1] && actions[1..][n - 1] == actions[n];
    }
  }

  /** No pair is lost and none is handed over twice: what waits is what has been put since the last hand-over. */
  lemma {:induction false} DirtyIsUnflushed(actions: seq<Action>, batchSize: int)
    requires Possible(START, actions, batchSize)
    ensures Run(START, actions, batchSize).dirty == Unflushed(actions)
    decreases |actions|
  {
    if actions != [] {
      RunSnoc(START, actions, batchSize);
      DirtyIsUnflushed(actions[..|actions| - 1], batchSize);
    }
  }

  /** The dirty set stays below the batch size after each step. */
  predicate StaysSmall(s: State, actions: seq<Action>, batchSize: int)
    requires Possible(s, actions, batchSize)
    decreases |actions|
  {
    |s.dirty| < batchSize && (actions == [] || StaysSmall(Step(s, actions[0], batchSize), actions[1..], batchSize))
  }

  predicate NobodyWakes(s: State, batchSize: int)
  {
    !s.token && forall p | p in s.setters :: !WillSend(s.setters[p], batchSize)
  }

  /** There is no wake-up without a full batch: in a run whose dirty set stays below the batch size no token is ever
      sent, so only the timer wakes the flusher. */
  lemma {:induction false} NoIdleWakeup(s: State, actions: seq<Action>, batchSize: int)
    requires NobodyWakes(s, batchSize) && Possible(s, actions, batchSize) && StaysSmall(s, actions, batchSize)
    ensures NobodyWakes(Run(s, actions, batchSize), batchSize)
    decreases |actions|
  {
    if actions != [] {
      var t := Step(s, actions[0], batchSize);
      assert |t.dirty| < batchSize;
      NoIdleWakeup(t, actions[1..], batchSize);
    }
  }

  /** The timer: a waiting flusher takes over what is there, leaves any token where it is, and goes back to waiting;
      with nothing there it does so at once. */
  lemma TimerFlushes(s: State, batchSize: int)
    requires s.flusher.Waiting?
    ensures var run := if s.dirty == map[] then [Tick, Snapshot] else [Tick, Snapshot, Finish];
            Possible(s, run, batchSize) && Run(s, run, batchSize) == s.(dirty := map[])
  {
    var t := Step(s, Tick, batchSize);
    var u := Step(t, Snapshot, batchSize);
    if s.dirty == map[] {
      assert [Tick, Snapshot][1..] == [Snapshot] && [Snapshot][1..] == [];
      assert Possible(t, [Snapshot], batchSize) && Run(t, [Snapshot], batchSize) == u;
    } else {
      assert [Tick, Snapshot, Finish][1..] == [Snapshot, Finish] && [Snapshot, Finish][1..] == [Finish] && [Finish][1..] == [];
      assert Possible(u, [Finish], batchSize) && Run(u, [Finish], batchSize) == Step(u, Finish, batchSize);
      assert Possible(t, [Snapshot, Finish], batchSize);
    }
  }

  /** Steps that finish what has been started; neither a new Set nor the timer nor an explicit Flush. */
  predicate Pending(a: Action)
  {
    a.Test? || a.Send? || a.TakeToken? || a.Snapshot? || a.Finish?
  }

  predicate AllPending(actions: seq<Action>)
  {
    forall i :: 0 <= i < |actions| ==> Pending(actions[i])
  }

  lemma Prepend(s: State, a: Action, rest: seq<Action>, batchSize: int)
    requires Enabled(s, a) && Pending(a) && Possible(Step(s, a, batchSize), rest, batchSize) && AllPending(rest)
    ensures Possible(s, [a] + rest, batchSize) && AllPending([a] + rest)
    ensures Run(s, [a] + rest, batchSize) == Run(Step(s, a, batchSize), rest, batchSize)
  {
    assert ([a] + rest)[1..] == rest;
  }

  /** `actions` are under way already and end with the dirty set in the flusher's hands. */
  ghost predicate Flushes(s: State, actions: seq<Action>, batchSize: int)
  {
    && Possible(s, actions, batchSize) && AllPending(actions)
    && Run(s, actions, batchSize).dirty == map[] && Run(s, actions, batchSize).flusher.Writing?
  }

  lemma After(s: State, a: Action, rest: seq<Action>, batchSize: int)
    requires Enabled(s, a) && Pending(a) && Flushes(Step(s, a, batchSize), rest, batchSize)
    ensures Flushes(s, [a] + rest, batchSize)
  {
    Prepend(s, a, rest, batchSize);
  }

  lemma AwakeFlushes(s: State, batchSize: int)
    requires |s.dirty| > 0 && s.flusher.Woken?
    ensures Flushes(s, [Snapshot], batchSize)
  {
    Prepend(s, Snapshot, [], batchSize);
  }

  lemma TokenFlushes(s: State, batchSize: int) returns (actions: seq<Action>)
    requires |s.dirty| > 0 && (s.token || s.flusher.Woken?)
    ensures Flushes(s, actions, batchSize) && |actions| <= 3
  {
    if s.flusher.Woken? {
      AwakeFlushes(s, batchSize);
      actions := [Snapshot];
    } else {
      var t := if s.flusher.Writing? then Step(s, Finish, batchSize) else s;
      AwakeFlushes(Step(t, TakeToken, batchSize), batchSize);
      After(t, TakeToken, [Snapshot], batchSize);
      actions := [TakeToken] + [Snapshot];
      if s.flusher.Writing? {
        After(s, Finish, actions, batchSize);
        actions := [Finish] + actions;
      }
    }
  }

  /** And the wake-up is enough: after every run that leaves a batch waiting, at most five of the steps already
      under way, without the timer, carry the whole dirty set to the flusher. */
  lemma PendingStepsFlush(run: seq<Action>, batchSize: int) returns (actions: seq<Action>)
    requires Possible(START, run, batchSize) && Due(Run(START, run, batchSize), batchSize)
    ensures Flushes(Run(START, run, batchSize), actions, batchSize) && |actions| <= 5
  {
    RunKeepsNoneLost(START, run, batchSize);
    actions := WakeupFlushes(Run(START, run, batchSize), batchSize);
  }

  lemma WakeupFlushes(s: State, batchSize: int) returns (actions: seq<Action>)
    requires NoneLost(s, batchSize) && Due(s, batchSize)
    ensures Flushes(s, actions, batchSize) && |actions| <= 5
  {
    if s.token || s.flusher.Woken? {
      actions := TokenFlushes(s, batchSize);
    } else {
      var p :| p in s.setters && WillSend(s.setters[p], batchSize);
      var t := if s.setters[p].Wrote? then Step(s, Test(p), batchSize) else s;
      var rest := TokenFlushes(Step(t, Send(p), batchSize), batchSize);
      After(t, Send(p), rest, batchSize);
      actions := [Send(p)] + rest;
      if s.setters[p].Wrote? {
        After(s, Test(p), actions, batchSize);
        actions := [Test(p)] + actions;
      }
    }
  }
}
