/** Subscriber bookkeeping: topic lists of channels, the closing of channels, and the session maps
    that own them, through re-subscribe, unsubscribe and clean-up in every interleaving. */
module Subscribers {

  type Chan = nat
  type Name = string

  // ----- one topic's list -----

  /** The list without the first occurrence of c. */
  function Without(subs: seq<Chan>, c: Chan): (r: seq<Chan>)
  {
    if subs == [] then [] else if subs[0] == c then subs[1..] else [subs[0]] + Without(subs[1..], c)
  }

  predicate Distinct(subs: seq<Chan>)
  {
    forall i, j :: 0 <= i < j < |subs| ==> subs[i] != subs[j]
  }

  lemma {:induction false} WithoutFacts(subs: seq<Chan>, c: Chan)
    requires Distinct(subs)
    ensures Distinct(Without(subs, c))
    ensures forall d :: d in Without(subs, c) <==> d in subs && d != c
  {
    if subs != [] {
      var rest := subs[1..];
      assert subs == [subs[0]] + rest;
      assert Distinct(rest) && subs[0] !in rest by {
        assert forall i :: 0 <= i < |rest| ==> rest[i] == subs[i + 1];
      }
      WithoutFacts(rest, c);
    }
  }

  lemma {:induction false} WithoutAt(subs: seq<Chan>, c: Chan, i: nat)
    requires i < |subs| && subs[i] == c && c !in subs[..i]
    ensures Without(subs, c) == subs[..i] + subs[i + 1..]
  {
    if i > 0 {
      assert subs[0] == subs[..i][0];
      assert subs[1..][..i - 1] == subs[..i][1..];
      WithoutAt(subs[1..], c, i - 1);
    }
  }

  lemma {:induction false} WithoutAbsent(subs: seq<Chan>, c: Chan)
    requires c !in subs
    ensures Without(subs, c) == subs
  {
    if subs != [] {
      WithoutAbsent(subs[1..], c);
    }
  }

  class Topic {
    var subs: seq<Chan>
    var closed: set<Chan>

    constructor ()
      ensures subs == [] && closed == {}
    {
      subs, closed := [], {};
    }

    method Subscribe(c: Chan)
      modifies this`subs
      ensures subs == old(subs) + [c]
    {
      subs := subs + [c];
    }

    /** The unsub closure: it searches the list and closes the channel only if it is still there, so a second
        call does nothing. */
    method Unsub(c: Chan)
      modifies this
      ensures subs == Without(old(subs), c)
      ensures closed == old(closed) + if c in old(subs) then {c} else {}
    {
      for i := 0 to |subs|
        invariant subs == old(subs) && closed == old(closed) && c !in subs[..i]
      {
        if subs[i] == c {
          WithoutAt(subs, c, i);
          subs := subs[..i] + subs[i + 1..];
          closed := closed + {c};
          return;
        }
      }
      assert subs[..|subs|] == subs;
      WithoutAbsent(subs, c);
    }
  }

  // ----- topics and sessions -----

  /** `subs` is the session's map from filter to subscription; `pending` a channel registered with its topic
      and not yet in that map; `leaving` that clean-up has begun. */
  datatype Session = Session(subs: map<Name, Chan>, pending: Pending, leaving: bool)

  datatype Pending = None | Fresh(topic: Name, c: Chan)

  /** `home` and `owner` record for each channel ever made its topic and its session. */
  datatype State = State(
    lists: map<Name, seq<Chan>>, closed: set<Chan>, home: map<Chan, Name>, owner: map<Chan, nat>,
    sessions: map<nat, Session>)

  datatype Action =
    | Open(i: nat)
    | Register(i: nat, t: Name, c: Chan)
    | Adopt(i: nat)
    | Drop(i: nat, t: Name)
    | Leave(i: nat) | LeaveOne(i: nat, t: Name) | Left(i: nat)
    | Again(t: Name, c: Chan)
    | FanOut(t: Name)

  function ListOf(s: State, t: Name): (l: seq<Chan>)
  {
    if t in s.lists then s.lists[t] else []
  }

  /** unsub of channel c on topic t. */
  function Unsub(s: State, t: Name, c: Chan): (r: State)
  {
    if c in ListOf(s, t) then s.(lists := s.lists[t := Without(ListOf(s, t), c)], closed := s.closed + {c}) else s
  }

  predicate Busy(s: State, i: nat)
  {
    i in s.sessions && !s.sessions[i].leaving
  }

  predicate Enabled(s: State, a: Action)
  {
    match a
    case Open(i) => i !in s.sessions && forall c | c in s.owner :: s.owner[c] != i
    case Register(i, t, c) => Busy(s, i) && s.sessions[i].pending.None? && c !in s.home
    case Adopt(i) => Busy(s, i) && s.sessions[i].pending.Fresh?
    case Drop(i, t) => Busy(s, i) && s.sessions[i].pending.None? && t in s.sessions[i].subs
    case Leave(i) => Busy(s, i) && s.sessions[i].pending.None?
    case LeaveOne(i, t) => i in s.sessions && s.sessions[i].leaving && t in s.sessions[i].subs
    case Left(i) => i in s.sessions && s.sessions[i].leaving && s.sessions[i].subs == map[]
    case Again(t, c) => c in s.closed
    case FanOut(t) => true
  }

  function PutSession(s: State, i: nat, x: Session): (r: State)
  {
    s.(sessions := s.sessions[i := x])
  }

  function Step(s: State, a: Action): (r: State)
    requires Enabled(s, a)
  {
    match a
    case Open(i) => PutSession(s, i, Session(map[], None, false))
    case Register(i, t, c) =>
      PutSession(s, i, s.sessions[i].(pending := Fresh(t, c)))
        .(lists := s.lists[t := ListOf(s, t) + [c]], home := s.home[c := t], owner := s.owner[c := i])
    case Adopt(i) =>
      var x := s.sessions[i];
      var t, c := x.pending.topic, x.pending.c;
      PutSession(if t in x.subs then Unsub(s, t, x.subs[t]) else s, i, x.(subs := x.subs[t := c], pending := None))
    case Drop(i, t) =>
      var x := s.sessions[i];
      PutSession(Unsub(s, t, x.subs[t]), i, x.(subs := x.subs - {t}))
    case Leave(i) => PutSession(s, i, s.sessions[i].(leaving := true))
    case LeaveOne(i, t) =>
      var x := s.sessions[i];
      PutSession(Unsub(s, t, x.subs[t]), i, x.(subs := x.subs - {t}))
    case Left(i) => s.(sessions := s.sessions - {i})
    case Again(t, c) => Unsub(s, t, c)
    case FanOut(t) => s
  }

  predicate Possible(s: State, actions: seq<Action>)
    decreases |actions|
  {
    actions == [] || (Enabled(s, actions[0]) && Possible(Step(s, actions[0]), actions[1..]))
  }

  function Run(s: State, actions: seq<Action>): (r: State)
    requires Possible(s, actions)
    decreases |actions|
  {
    if actions == [] then s else Run(Step(s, actions[0]), actions[1..])
  }

  /** A fan-out sends to every channel of its topic's list; on a closed one it would panic. */
  predicate SendsOnClosed(s: State, a: Action)
  {
    a.FanOut? && exists c | c in ListOf(s, a.t) :: c in s.closed
  }

  predicate NeverSendsOnClosed(s: State, actions: seq<Action>)
    requires Possible(s, actions)
    decreases |actions|
  {
    actions == [] || (!SendsOnClosed(s, actions[0]) && NeverSendsOnClosed(Step(s, actions[0]), actions[1..]))
  }

  const START: State := State(map[], {}, map[], map[], map[])

  // ----- the invariant -----

  ghost predicate ListOk(s: State, t: Name)
  {
    Distinct(ListOf(s, t)) && forall c :: c in ListOf(s, t) <==> c in s.home && s.home[c] == t && c !in s.closed
  }

  /** A channel is on its topic's list, once, exactly while it is not closed. */
  ghost predicate ListsOk(s: State)
  {
    && (forall t :: ListOk(s, t))
    && (forall c | c in s.closed :: c in s.home)
    && s.home.Keys == s.owner.Keys
  }

  /** The session holds channel c for topic t. */
  predicate Holds(x: Session, t: Name, c: Chan)
  {
    (t in x.subs && x.subs[t] == c) || x.pending == Fresh(t, c)
  }

  /** Each open channel is held by its owner, for its topic, and by nobody else. */
  ghost predicate OwnersOk(s: State)
  {
    && (forall c | c in s.home && c !in s.closed ::
          c in s.owner && s.owner[c] in s.sessions && Holds(s.sessions[s.owner[c]], s.home[c], c))
    && (forall i, t, c | i in s.sessions && Holds(s.sessions[i], t, c) ::
          c in s.home && s.home[c] == t && c in s.owner && s.owner[c] == i && c !in s.closed)
    && (forall i | i in s.sessions :: PendingIsNew(s.sessions[i]))
  }

  predicate PendingIsNew(x: Session)
  {
    x.pending.Fresh? && x.pending.topic in x.subs ==> x.subs[x.pending.topic] != x.pending.c
  }

  ghost predicate Inv(s: State)
  {
    ListsOk(s) && OwnersOk(s)
  }

  lemma UnsubKeepsLists(s: State, t: Name, c: Chan)
    requires ListsOk(s)
    ensures ListsOk(Unsub(s, t, c))
    ensures Unsub(s, t, c).closed == s.closed + if c in ListOf(s, t) then {c} else {}
  {
    assert ListOk(s, t);
    WithoutFacts(ListOf(s, t), c);
    var r := Unsub(s, t, c);
    forall u ensures ListOk(r, u) {
      assert ListOk(s, u);
      if u != t { assert ListOf(r, u) == ListOf(s, u); }
    }
  }

  lemma SameLists(s: State, r: State)
    requires ListsOk(s) && r.lists == s.lists && r.closed == s.closed && r.home == s.home && r.owner == s.owner
    ensures ListsOk(r)
  {
    forall t ensures ListOk(r, t) {
      assert ListOk(s, t) && ListOf(r, t) == ListOf(s, t);
    }
  }

  lemma RegisterKeepsLists(s: State, i: nat, t: Name, c: Chan)
    requires Inv(s) && Enabled(s, Register(i, t, c))
    ensures ListsOk(Step(s, Register(i, t, c)))
  {
    var r := Step(s, Register(i, t, c));
    forall u ensures ListOk(r, u) {
      assert ListOk(s, u);
      if u == t { assert ListOf(r, t) == ListOf(s, t) + [c]; } else { assert ListOf(r, u) == ListOf(s, u); }
    }
  }

  lemma RegisterKeepsInv(s: State, i: nat, t: Name, c: Chan)
    requires Inv(s) && Enabled(s, Register(i, t, c))
    ensures Inv(Step(s, Register(i, t, c)))
  {
    var r := Step(s, Register(i, t, c));
    RegisterKeepsLists(s, i, t, c);
    forall n | n in r.sessions ensures PendingIsNew(r.sessions[n]) {
      assert PendingIsNew(s.sessions[n]);
      if n == i && t in s.sessions[i].subs { assert Holds(s.sessions[i], t, s.sessions[i].subs[t]); }
    }
    forall n, u, d | n in r.sessions && Holds(r.sessions[n], u, d)
      ensures d in r.home && r.home[d] == u && d in r.owner && r.owner[d] == n && d !in r.closed
    {
      assert Holds(s.sessions[n], u, d) || (n == i && u == t && d == c);
    }
    forall d | d in r.home && d !in r.closed
      ensures d in r.owner && r.owner[d] in r.sessions && Holds(r.sessions[r.owner[d]], r.home[d], d)
    {
      if d != c { assert Holds(s.sessions[s.owner[d]], s.home[d], d); }
    }
  }

  /** Dropping the channel a session holds for t. */
  lemma DropKeepsInv(s: State, i: nat, t: Name, y: Session)
    requires Inv(s) && i in s.sessions && t in s.sessions[i].subs
    requires y == s.sessions[i].(subs := s.sessions[i].subs - {t})
    requires s.sessions[i].pending.None?
    ensures Inv(PutSession(Unsub(s, t, s.sessions[i].subs[t]), i, y))
  {
    var c := s.sessions[i].subs[t];
    assert Holds(s.sessions[i], t, c);
    assert ListOk(s, t) && c in ListOf(s, t);
    UnsubKeepsLists(s, t, c);
    var r := PutSession(Unsub(s, t, c), i, y);
    SameLists(Unsub(s, t, c), r);
    forall n, u, d | n in r.sessions && Holds(r.sessions[n], u, d)
      ensures d in r.home && r.home[d] == u && d in r.owner && r.owner[d] == n && d !in r.closed
    {
      assert Holds(s.sessions[n], u, d);
    }
    forall d | d in r.home && d !in r.closed
      ensures d in r.owner && r.owner[d] in r.sessions && Holds(r.sessions[r.owner[d]], r.home[d], d)
    {
      assert Holds(s.sessions[s.owner[d]], s.home[d], d);
    }
  }

  /** The swap at the end of handleSubscribe: unsubscribe the old channel, keep the new one. */
  lemma AdoptKeepsInv(s: State, i: nat)
    requires Inv(s) && Enabled(s, Adopt(i))
    ensures Inv(Step(s, Adopt(i)))
  {
    var x, r := s.sessions[i], Step(s, Adopt(i));
    var t, c := x.pending.topic, x.pending.c;
    assert Holds(x, t, c) && PendingIsNew(x);
    if t in x.subs {
      assert Holds(x, t, x.subs[t]);
      assert ListOk(s, t) && x.subs[t] in ListOf(s, t);
      UnsubKeepsLists(s, t, x.subs[t]);
    }
    var u := if t in x.subs then Unsub(s, t, x.subs[t]) else s;
    SameLists(u, r);
    forall n, v, d | n in r.sessions && Holds(r.sessions[n], v, d)
      ensures d in r.home && r.home[d] == v && d in r.owner && r.owner[d] == n && d !in r.closed
    {
      assert Holds(s.sessions[n], v, d);
    }
    forall d | d in r.home && d !in r.closed
      ensures d in r.owner && r.owner[d] in r.sessions && Holds(r.sessions[r.owner[d]], r.home[d], d)
    {
      assert Holds(s.sessions[s.owner[d]], s.home[d], d);
    }
  }

  lemma QuietKeepsInv(s: State, a: Action)
    requires Inv(s) && LeavingOk(s) && Enabled(s, a) && (a.Open? || a.Leave? || a.Left? || a.Again? || a.FanOut?)
    ensures Inv(Step(s, a))
  {
    var r := Step(s, a);
    if a.Again? {
      assert ListOk(s, a.t);
    } else {
      SameLists(s, r);
      forall n, t, c | n in r.sessions && Holds(r.sessions[n], t, c)
        ensures c in r.home && r.home[c] == t && c in r.owner && r.owner[c] == n && c !in r.closed
      {
        assert n in s.sessions && Holds(s.sessions[n], t, c);
      }
      forall c | c in r.home && c !in r.closed
        ensures c in r.owner && r.owner[c] in r.sessions && Holds(r.sessions[r.owner[c]], r.home[c], c)
      {
        assert Holds(s.sessions[s.owner[c]], s.home[c], c);
      }
    }
  }

  lemma StepKeepsInv(s: State, a: Action)
    requires Inv(s) && Enabled(s, a) && LeavingOk(s)
    ensures Inv(Step(s, a)) && LeavingOk(Step(s, a))
  {
    match a
    case Register(i, t, c) => RegisterKeepsInv(s, i, t, c);
    case Adopt(i) => AdoptKeepsInv(s, i);
    case Drop(i, t) => DropKeepsInv(s, i, t, s.sessions[i].(subs := s.sessions[i].subs - {t}));
    case LeaveOne(i, t) => DropKeepsInv(s, i, t, s.sessions[i].(subs := s.sessions[i].subs - {t}));
    case _ => QuietKeepsInv(s, a);
  }

  /** A session that is cleaning up has no registration in progress. */
  predicate LeavingOk(s: State)
  {
    forall i | i in s.sessions :: s.sessions[i].leaving ==> s.sessions[i].pending.None?
  }

  lemma {:induction false} RunKeepsInv(s: State, actions: seq<Action>)
    requires Inv(s) && LeavingOk(s) && Possible(s, actions)
    ensures Inv(Run(s, actions)) && LeavingOk(Run(s, actions)) && NeverSendsOnClosed(s, actions)
    decreases |actions|
  {
    if actions != [] {
      if actions[0].FanOut? { assert ListOk(s, actions[0].t); }
      StepKeepsInv(s, actions[0]);
      RunKeepsInv(Step(s, actions[0]), actions[1..]);
    }
  }

  // ----- what each step does to a session -----

  /** Everything but session i's subscription to t is as before. */
  ghost predicate OnlyTouches(s: State, r: State, i: nat, t: Name)
  {
    && r.home == s.home && r.owner == s.owner && r.sessions.Keys == s.sessions.Keys
    && (forall n | n in s.sessions && n != i :: r.sessions[n] == s.sessions[n])
    && (forall u | u != t :: ListOf(r, u) == ListOf(s, u))
    && i in s.sessions && r.sessions[i].subs - {t} == s.sessions[i].subs - {t} && r.sessions[i].leaving == s.sessions[i].leaving
  }

  /** Channel c, and no other, has been closed and has left the list of t. */
  ghost predicate OnlyCloses(s: State, r: State, t: Name, c: Chan)
  {
    && r.closed == s.closed + {c}
    && forall d :: d in ListOf(r, t) <==> d in ListOf(s, t) && d != c
  }

  /** UNSUBSCRIBE, and one turn of the clean-up loop: the session holds nothing for t any more, the channel it held
      is closed and off the list, and nothing else changes. */
  lemma DropForgets(s: State, i: nat, t: Name, a: Action)
    requires Inv(s) && LeavingOk(s) && Enabled(s, a) && (a == Drop(i, t) || a == LeaveOne(i, t))
    ensures var r, c := Step(s, a), s.sessions[i].subs[t];
            && OnlyTouches(s, r, i, t) && OnlyCloses(s, r, t, c)
            && t !in r.sessions[i].subs && r.sessions[i].pending.None?
  {
    var c := s.sessions[i].subs[t];
    assert Holds(s.sessions[i], t, c);
    assert ListOk(s, t);
    WithoutFacts(ListOf(s, t), c);
  }

  /** SUBSCRIBE, first half: a new channel at the end of the list, not closed, on its way to the session's map. */
  lemma RegisterAdds(s: State, i: nat, t: Name, c: Chan)
    requires Inv(s) && Enabled(s, Register(i, t, c))
    ensures var r := Step(s, Register(i, t, c));
            && ListOf(r, t) == ListOf(s, t) + [c] && c !in r.closed && r.closed == s.closed
            && (forall u | u != t :: ListOf(r, u) == ListOf(s, u))
            && r.sessions[i].subs == s.sessions[i].subs && Holds(r.sessions[i], t, c)
            && (forall n | n in s.sessions && n != i :: r.sessions[n] == s.sessions[n])
  {
  }

  /** Second half: the session holds the new channel for t and no other, and the one it held before, if any, is
      closed and off the list. */
  lemma AdoptReplaces(s: State, i: nat)
    requires Inv(s) && Enabled(s, Adopt(i))
    ensures var x, r := s.sessions[i], Step(s, Adopt(i));
            var t, c := x.pending.topic, x.pending.c;
            && OnlyTouches(s, r, i, t) && r.sessions[i].pending.None? && c !in r.closed && c in ListOf(r, t)
            && (forall d :: Holds(r.sessions[i], t, d) <==> d == c)
            && (if t in x.subs then OnlyCloses(s, r, t, x.subs[t]) else r.closed == s.closed && ListOf(r, t) == ListOf(s, t))
  {
    var x := s.sessions[i];
    var t, c := x.pending.topic, x.pending.c;
    assert Holds(x, t, c) && PendingIsNew(x);
    assert ListOk(s, t);
    if t in x.subs {
      assert Holds(x, t, x.subs[t]);
      WithoutFacts(ListOf(s, t), x.subs[t]);
    }
  }

  lemma InFront(s: State, a: Action, rest: seq<Action>)
    requires Enabled(s, a) && Possible(Step(s, a), rest)
    ensures Possible(s, [a] + rest) && Run(s, [a] + rest) == Run(Step(s, a), rest)
  {
    assert ([a] + rest)[1..] == rest;
  }

  lemma LeavesOne(s: State, i: nat, t: Name) returns (r: State)
    requires Inv(s) && LeavingOk(s) && Enabled(s, LeaveOne(i, t))
    ensures r == Step(s, LeaveOne(i, t)) && Inv(r) && LeavingOk(r)
    ensures i in r.sessions && r.sessions[i].leaving && |r.sessions[i].subs| < |s.sessions[i].subs|
    ensures r.home == s.home && r.owner == s.owner && r.sessions - {i} == s.sessions - {i}
  {
    r := Step(s, LeaveOne(i, t));
    StepKeepsInv(s, LeaveOne(i, t));
    FewerKeys(s.sessions[i].subs, t);
  }

  lemma FewerKeys(m: map<Name, Chan>, t: Name)
    requires t in m
    ensures |m - {t}| < |m|
  {
    assert (m - {t}).Keys == m.Keys - {t};
    assert |m.Keys| == |m| && |(m - {t}).Keys| == |m - {t}|;
  }

  /** The clean-up loop over what the session still holds, then the end of the session. */
  lemma {:induction false} CleanUp(s: State, i: nat) returns (more: seq<Action>)
    requires Inv(s) && LeavingOk(s) && i in s.sessions && s.sessions[i].leaving
    ensures Possible(s, more) && Run(s, more).sessions == s.sessions - {i}
    ensures Run(s, more).home == s.home && Run(s, more).owner == s.owner && Inv(Run(s, more))
    decreases |s.sessions[i].subs|
  {
    if s.sessions[i].subs == map[] {
      more := [Left(i)];
      StepKeepsInv(s, Left(i));
      assert Run(Step(s, Left(i)), []) == Step(s, Left(i));
    } else {
      var t :| t in s.sessions[i].subs;
      var r := LeavesOne(s, i, t);
      var rest := CleanUp(r, i);
      more := [LeaveOne(i, t)] + rest;
      InFront(s, LeaveOne(i, t), rest);
    }
  }

  /** In every run a session that is not in the middle of a SUBSCRIBE can leave: its clean-up comes to an end,
      touches no other session, and leaves every channel the session ever had closed and off its list. */
  lemma EverySessionCanLeave(actions: seq<Action>, i: nat) returns (more: seq<Action>)
    requires Possible(START, actions) && i in Run(START, actions).sessions && Run(START, actions).sessions[i].pending.None?
    ensures var s := Run(START, actions);
            && Possible(s, more)
            && var r := Run(s, more);
               && r.sessions == s.sessions - {i}
               && forall c | c in s.owner && s.owner[c] == i :: c in r.closed && c in r.home && c !in ListOf(r, r.home[c])
  {
    StartIsOk();
    RunKeepsInv(START, actions);
    var s := Run(START, actions);
    var r;
    if s.sessions[i].leaving {
      more := CleanUp(s, i);
      r := Run(s, more);
    } else {
      StepKeepsInv(s, Leave(i));
      var t := Step(s, Leave(i));
      var rest := CleanUp(t, i);
      more := [Leave(i)] + rest;
      InFront(s, Leave(i), rest);
      assert t.sessions - {i} == s.sessions - {i};
      r := Run(t, rest);
    }
    forall c | c in s.owner && s.owner[c] == i ensures c in r.closed && c in r.home && c !in ListOf(r, r.home[c]) {
      assert ListOk(r, r.home[c]);
    }
  }

  lemma StartIsOk()
    ensures Inv(START) && LeavingOk(START)
  {
    assert forall t :: ListOk(START, t);
  }

  /** Over every run: a channel is closed exactly when it has left its topic's list, so no fan-out ever sends on a
      closed channel and a repeated unsub changes nothing; a session owns at most one channel per filter besides
      the one it is just registering; and once every session has cleaned up, no list holds a subscriber. */
  lemma BookkeepingIsExact(actions: seq<Action>)
    requires Possible(START, actions)
    ensures var s := Run(START, actions);
            && NeverSendsOnClosed(START, actions)
            && (forall c | c in s.home :: c in s.closed <==> c !in ListOf(s, s.home[c]))
            && (forall t, c | c in s.closed :: Unsub(s, t, c) == s)
            && (forall t, c | c in ListOf(s, t) :: c in s.owner && s.owner[c] in s.sessions && Holds(s.sessions[s.owner[c]], t, c))
            && (forall t, c, d | c in ListOf(s, t) && d in ListOf(s, t) && s.owner[c] == s.owner[d] ::
                  s.sessions[s.owner[c]].pending.None? ==> c == d)
            && (s.sessions == map[] ==> forall t :: ListOf(s, t) == [])
  {
    StartIsOk();
    RunKeepsInv(START, actions);
    var s := Run(START, actions);
    forall c | c in s.home ensures c in s.closed <==> c !in ListOf(s, s.home[c]) {
      assert ListOk(s, s.home[c]);
    }
    forall t, c | c in s.closed ensures Unsub(s, t, c) == s {
      assert ListOk(s, t);
    }
    forall t, c | c in ListOf(s, t)
      ensures c in s.owner && s.owner[c] in s.sessions && Holds(s.sessions[s.owner[c]], t, c)
    {
      assert ListOk(s, t);
    }
    if s.sessions == map[] {
      forall t ensures ListOf(s, t) == [] {
        NobodyListed(s, t);
      }
    }
  }

  lemma NobodyListed(s: State, t: Name)
    requires forall c | c in ListOf(s, t) :: c in s.owner && s.owner[c] in s.sessions
    ensures s.sessions == map[] ==> ListOf(s, t) == []
  {
    if ListOf(s, t) != [] {
      assert ListOf(s, t)[0] in ListOf(s, t);
    }
  }
}
