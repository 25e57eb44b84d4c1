/** Consumer-side deduplication in the SDK: a bounded FIFO of server message ids in front of the
    handler, and the consume loop that drives it. */
module SeenCache {
  import opened Bytes
  import opened Common

  datatype State = State(keys: seq<Uuid>, ids: set<Uuid>)

  const EMPTY: State := State([], {})

  /** Seen: (already seen, new state). The nil id is never remembered. */
  function Seen(s: State, id: Uuid, cap: nat): (r: (bool, State))
  {
    if id == NIL_UUID then (false, s)
    else if id in s.ids then (true, s)
    else
      var keys, ids := s.keys + [id], s.ids + {id};
      if |keys| > cap then (false, State(keys[1..], ids - {keys[0]})) else (false, State(keys, ids))
  }

  class Cache {
    var keys: seq<Uuid>
    var ids: set<Uuid>
    const cap: nat

    ghost function Value(): State
      reads this
    {
      State(keys, ids)
    }

    constructor (capacity: int)
      ensures Value() == EMPTY && cap >= MIN_CAPACITY && (capacity >= MIN_CAPACITY ==> cap == capacity)
    {
      keys, ids := [], {};
      cap := if capacity < MIN_CAPACITY then MIN_CAPACITY else capacity;
    }

    method Note(id: Uuid) returns (dup: bool)
      modifies this
      ensures (dup, Value()) == Seen(old(Value()), id, cap)
    {
      if id == NIL_UUID {
        return false;
      }
      if id in ids {
        return true;
      }
      ids := ids + {id};
      keys := keys + [id];
      if |keys| > cap {
        var oldest := keys[0];
        keys := keys[1..];
        ids := ids - {oldest};
      }
      dup := false;
    }
  }

  // ----- the consume loop -----

  /** A delivered PUBLISH: its server message id and its packet id (0 at QoS 0). */
  datatype Delivery = Delivery(id: Uuid, pid: nat)

  /** The state after a stream of deliveries. */
  function After(ds: seq<Uuid>, cap: nat): (s: State)
  {
    if ds == [] then EMPTY else Seen(After(ds[..|ds| - 1], cap), ds[|ds| - 1], cap).1
  }

  /** Whether the handler runs for delivery number i. */
  predicate Handled(ds: seq<Uuid>, i: nat, cap: nat)
    requires i < |ds|
  {
    !Seen(After(ds[..i], cap), ds[i], cap).0
  }

  function Ids(ds: seq<Delivery>): (r: seq<Uuid>)
    ensures |r| == |ds| && forall i :: 0 <= i < |ds| ==> r[i] == ds[i].id
  {
    if ds == [] then [] else Ids(ds[..|ds| - 1]) + [ds[|ds| - 1].id]
  }

  /** Accepted: the ids the cache took in, oldest first. */
  function Accepted(ds: seq<Uuid>, cap: nat): (r: seq<Uuid>)
  {
    if ds == [] then []
    else
      var n := |ds| - 1;
      Accepted(ds[..n], cap) + if ds[n] != NIL_UUID && Handled(ds, n, cap) then [ds[n]] else []
  }

  /** The last `cap` elements. */
  function LastOf(xs: seq<Uuid>, cap: nat): (r: seq<Uuid>)
  {
    if |xs| <= cap then xs else xs[|xs| - cap..]
  }

  lemma OneDelivery(ds: seq<Uuid>, n: nat, cap: nat)
    requires n < |ds|
    ensures After(ds[..n + 1], cap) == Seen(After(ds[..n], cap), ds[n], cap).1
    ensures Handled(ds, n, cap) <==> !Seen(After(ds[..n], cap), ds[n], cap).0
  {
    assert ds[..n + 1][..n] == ds[..n] && ds[..n + 1][n] == ds[n];
  }

  /** The deliveries, of the first n, that reach the handler. */
  function Reached(ds: seq<Uuid>, n: nat, cap: nat): (r: seq<nat>)
    requires n <= |ds|
  {
    if n == 0 then [] else Reached(ds, n - 1, cap) + if Handled(ds, n - 1, cap) then [n - 1] else []
  }

  lemma {:induction false} ReachedFacts(ds: seq<Uuid>, n: nat, cap: nat)
    requires n <= |ds|
    ensures forall i: nat :: i < n ==> (i in Reached(ds, n, cap) <==> Handled(ds, i, cap))
    ensures forall i :: 0 <= i < |Reached(ds, n, cap)| ==> Reached(ds, n, cap)[i] < n
    ensures forall i, j :: 0 <= i < j < |Reached(ds, n, cap)| ==> Reached(ds, n, cap)[i] < Reached(ds, n, cap)[j]
  {
    if n > 0 {
      ReachedFacts(ds, n - 1, cap);
    }
  }

  /** The SDK loop over a packet stream: it runs the handler for what the cache has not seen and
      acknowledges every copy that has a packet id, seen or not. */
  method Consume(stream: seq<Delivery>, cache: Cache) returns (handled: seq<nat>, acks: seq<nat>)
    requires cache.Value() == EMPTY
    modifies cache
    ensures cache.Value() == After(Ids(stream), cache.cap)
    ensures handled == Reached(Ids(stream), |stream|, cache.cap)
    ensures acks == PacketIds(stream)
  {
    handled, acks := [], [];
    ghost var ids := Ids(stream);
    for n := 0 to |stream|
      invariant cache.Value() == After(ids[..n], cache.cap)
      invariant handled == Reached(ids, n, cache.cap)
      invariant acks == PacketIds(stream[..n])
    {
      OneDelivery(ids, n, cache.cap);
      assert stream[..n + 1][..n] == stream[..n];
      var dup := cache.Note(stream[n].id);
      if !dup {
        handled := handled + [n];
      }
      if stream[n].pid > 0 {
        acks := acks + [stream[n].pid];
      }
    }
    assert ids[..|stream|] == ids && stream[..|stream|] == stream;
  }

  function PacketIds(ds: seq<Delivery>): (r: seq<nat>)
  {
    if ds == [] then []
    else
      var last := ds[|ds| - 1];
      PacketIds(ds[..|ds| - 1]) + if last.pid > 0 then [last.pid] else []
  }

  /** ps are the positions of the copies with a packet id, in order, and `acks` the ids found there. */
  ghost predicate AcksAt(ds: seq<Delivery>, ps: seq<nat>, acks: seq<nat>)
  {
    && |ps| == |acks|
    && (forall q, r :: 0 <= q < r < |ps| ==> ps[q] < ps[r])
    && (forall q :: 0 <= q < |ps| ==> ps[q] < |ds| && ds[ps[q]].pid > 0 && acks[q] == ds[ps[q]].pid)
    && (forall i: nat :: i < |ds| && ds[i].pid > 0 ==> i in ps)
  }

  lemma AckMore(ds: seq<Delivery>, d: Delivery, ps: seq<nat>, acks: seq<nat>)
    requires AcksAt(ds, ps, acks) && d.pid > 0
    ensures AcksAt(ds + [d], ps + [|ds|], acks + [d.pid])
  {
    var all, qs := ds + [d], ps + [|ds|];
    forall i: nat | i < |all| && all[i].pid > 0 ensures i in qs {
      if i < |ds| { assert i in ps; } else { assert qs[|ps|] == i; }
    }
  }

  lemma NoAckMore(ds: seq<Delivery>, d: Delivery, ps: seq<nat>, acks: seq<nat>)
    requires AcksAt(ds, ps, acks) && d.pid == 0
    ensures AcksAt(ds + [d], ps, acks)
  {
  }

  /** Every copy with a packet id is acknowledged with it, seen or not, once, in order of arrival, and nothing
      else is. */
  lemma {:induction false} AcksAreAllIds(ds: seq<Delivery>) returns (ps: seq<nat>)
    ensures AcksAt(ds, ps, PacketIds(ds))
  {
    if ds == [] {
      ps := [];
    } else {
      var n := |ds| - 1;
      ps := AcksAreAllIds(ds[..n]);
      assert ds == ds[..n] + [ds[n]];
      if ds[n].pid > 0 {
        AckMore(ds[..n], ds[n], ps, PacketIds(ds[..n]));
        ps := ps + [n];
      } else {
        NoAckMore(ds[..n], ds[n], ps, PacketIds(ds[..n]));
        assert PacketIds(ds[..n]) + [] == PacketIds(ds[..n]);
      }
    }
  }

  // ----- the cache is the last `cap` accepted ids -----

  predicate NoDuplicates(xs: seq<Uuid>)
  {
    forall i, j :: 0 <= i < j < |xs| ==> xs[i] != xs[j]
  }

  predicate Valid(s: State, cap: nat)
  {
    |s.keys| <= cap && NoDuplicates(s.keys) && s.ids == (set id | id in s.keys) && NIL_UUID !in s.keys
  }

  lemma OneMoreKey(keys: seq<Uuid>, id: Uuid)
    requires NoDuplicates(keys) && id !in keys
    ensures var all := keys + [id];
            && NoDuplicates(all) && NoDuplicates(all[1..])
            && (set x | x in all) == (set x | x in keys) + {id}
            && (set x | x in all[1..]) == (set x | x in all) - {all[0]}
            && forall x | x in all[1..] :: x in all
  {
    var all := keys + [id];
    assert all == [all[0]] + all[1..];
    assert forall i :: 0 <= i < |all[1..]| ==> all[1..][i] == all[i + 1];
    assert all[0] !in all[1..];
  }

  lemma SeenKeepsValid(s: State, id: Uuid, cap: nat)
    requires Valid(s, cap) && cap > 0
    ensures Valid(Seen(s, id, cap).1, cap)
    ensures Seen(s, id, cap).0 <==> id in s.keys
    ensures Seen(s, id, cap).1.keys == if id == NIL_UUID || id in s.keys then s.keys else LastOf(s.keys + [id], cap)
  {
    var keys := s.keys + [id];
    if id != NIL_UUID && id !in s.ids {
      OneMoreKey(s.keys, id);
      if |keys| > cap {
        assert keys[1..] == LastOf(keys, cap);
      }
    }
  }

  lemma {:induction false} KeysAreLast(ds: seq<Uuid>, cap: nat)
    requires cap > 0
    ensures Valid(After(ds, cap), cap) && After(ds, cap).keys == LastOf(Accepted(ds, cap), cap)
  {
    if ds != [] {
      var n := |ds| - 1;
      var before, last := After(ds[..n], cap), ds[n];
      KeysAreLast(ds[..n], cap);
      SeenKeepsValid(before, last, cap);
      assert Handled(ds, n, cap) <==> last !in before.keys;
      if last != NIL_UUID && last !in before.keys {
        LastOfSnoc(Accepted(ds[..n], cap), last, cap);
      }
    }
  }

  /** The window theorem: on every stream, `keys` is duplicate-free, equal to the set, within `cap`,
      and exactly the last `cap` accepted ids, and an id counts as seen exactly when it is among them. */
  lemma CacheIsWindow(ds: seq<Uuid>, cap: nat)
    requires cap > 0
    ensures Valid(After(ds, cap), cap)
    ensures After(ds, cap).keys == LastOf(Accepted(ds, cap), cap)
    ensures forall id :: Seen(After(ds, cap), id, cap).0 <==> id in LastOf(Accepted(ds, cap), cap)
  {
    KeysAreLast(ds, cap);
    forall id ensures Seen(After(ds, cap), id, cap).0 <==> id in LastOf(Accepted(ds, cap), cap) {
      SeenKeepsValid(After(ds, cap), id, cap);
    }
  }

  lemma LastOfSnoc(xs: seq<Uuid>, x: Uuid, cap: nat)
    requires cap > 0
    ensures LastOf(LastOf(xs, cap) + [x], cap) == LastOf(xs + [x], cap)
  {
  }

  // ----- exactly once -----

  /** Distinct real ids other than x among the deliveries. */
  function Others(ds: seq<Uuid>, x: Uuid): (r: set<Uuid>)
  {
    set id | id in ds && id != x && id != NIL_UUID
  }

  /** The deliveries strictly between two positions. */
  function Amid(ds: seq<Uuid>, f: nat, l: nat): (r: seq<Uuid>)
    requires l <= |ds|
  {
    if f + 1 <= l then ds[f + 1..l] else []
  }

  /** x is among the keys, and every later key is one of `since`. */
  ghost predicate Behind(keys: seq<Uuid>, x: Uuid, since: set<Uuid>)
  {
    exists p :: KeyAt(keys, x, since, p)
  }

  predicate KeyAt(keys: seq<Uuid>, x: Uuid, since: set<Uuid>, p: int)
  {
    0 <= p < |keys| && keys[p] == x && forall q :: p < q < |keys| ==> keys[q] in since
  }

  lemma OthersGrow(ds: seq<Uuid>, f: nat, m: nat, n: nat, x: Uuid)
    requires f < m <= n <= |ds|
    ensures Others(Amid(ds, f, m), x) <= Others(Amid(ds, f, n), x)
    ensures |Others(Amid(ds, f, m), x)| <= |Others(Amid(ds, f, n), x)|
  {
    var a, b := Amid(ds, f, m), Amid(ds, f, n);
    assert a == b[..|a|];
    SubsetSize(Others(a, x), Others(b, x));
  }

  lemma NewestIsOther(ds: seq<Uuid>, f: nat, n: nat, x: Uuid)
    requires f + 1 < n <= |ds|
    ensures ds[n - 1] != NIL_UUID && ds[n - 1] != x ==> ds[n - 1] in Others(Amid(ds, f, n), x)
  {
    assert Amid(ds, f, n)[n - f - 2] == ds[n - 1];
  }

  lemma OneMore(ds: seq<Uuid>, n: nat, cap: nat)
    requires 0 < n <= |ds| && cap > 0
    ensures var before, y := After(ds[..n - 1], cap), ds[n - 1];
            && Valid(before, cap)
            && (Handled(ds, n - 1, cap) <==> y !in before.keys)
            && After(ds[..n], cap).keys == if y == NIL_UUID || y in before.keys then before.keys else LastOf(before.keys + [y], cap)
  {
    KeysAreLast(ds[..n - 1], cap);
    assert ds[..n][..n - 1] == ds[..n - 1] && ds[..n][n - 1] == ds[n - 1];
    SeenKeepsValid(After(ds[..n - 1], cap), ds[n - 1], cap);
  }

  /** While fewer than `cap` other ids have come since x was accepted, x is still in the cache, behind
      at most the ids that came since. */
  lemma {:induction false} StaysSeen(ds: seq<Uuid>, f: nat, n: nat, cap: nat)
    requires f < n <= |ds| && ds[f] != NIL_UUID && cap > 0
    requires Handled(ds, f, cap) && |Others(Amid(ds, f, n), ds[f])| < cap
    ensures Behind(After(ds[..n], cap).keys, ds[f], Others(Amid(ds, f, n), ds[f]))
    decreases n
  {
    if n == f + 1 {
      JustSeen(ds, f, cap);
    } else {
      OthersGrow(ds, f, n - 1, n, ds[f]);
      StaysSeen(ds, f, n - 1, cap);
      StaysOneMore(ds, f, n, cap);
    }
  }

  lemma JustSeen(ds: seq<Uuid>, f: nat, cap: nat)
    requires f < |ds| && ds[f] != NIL_UUID && cap > 0 && Handled(ds, f, cap)
    ensures Behind(After(ds[..f + 1], cap).keys, ds[f], Others(Amid(ds, f, f + 1), ds[f]))
  {
    OneMore(ds, f + 1, cap);
    var keys := After(ds[..f + 1], cap).keys;
    assert KeyAt(keys, ds[f], Others(Amid(ds, f, f + 1), ds[f]), |keys| - 1);
  }

  lemma StaysOneMore(ds: seq<Uuid>, f: nat, n: nat, cap: nat)
    requires f + 1 < n <= |ds| && cap > 0 && |Others(Amid(ds, f, n), ds[f])| < cap
    requires Behind(After(ds[..n - 1], cap).keys, ds[f], Others(Amid(ds, f, n - 1), ds[f]))
    ensures Behind(After(ds[..n], cap).keys, ds[f], Others(Amid(ds, f, n), ds[f]))
  {
    OneMore(ds, n, cap);
    OthersGrow(ds, f, n - 1, n, ds[f]);
    NewestIsOther(ds, f, n, ds[f]);
    NewestFit(After(ds[..n - 1], cap).keys, ds[f], ds[n - 1], Others(Amid(ds, f, n - 1), ds[f]),
              Others(Amid(ds, f, n), ds[f]), cap);
  }

  lemma {:induction false} SubsetSize<T>(a: set<T>, b: set<T>)
    requires a <= b
    ensures |a| <= |b|
    decreases |a|
  {
    if a != {} {
      var x :| x in a;
      SubsetSize(a - {x}, b - {x});
    }
  }

  /** A duplicate-free tail drawn from a small set is short. */
  lemma {:induction false} TailSize(xs: seq<Uuid>, b: set<Uuid>)
    requires NoDuplicates(xs) && forall i :: 0 <= i < |xs| ==> xs[i] in b
    ensures |xs| <= |b|
  {
    if xs != [] {
      TailSize(xs[1..], b - {xs[0]});
    }
  }

  lemma TailShort(keys: seq<Uuid>, p: nat, y: Uuid, now: set<Uuid>)
    requires p < |keys| && NoDuplicates(keys) && y !in keys && y in now
    requires forall q :: p < q < |keys| ==> keys[q] in now
    ensures |keys| - p <= |now|
  {
    var tail := keys[p + 1..] + [y];
    assert NoDuplicates(tail);
    TailSize(tail, now);
  }

  lemma LastOfKeepsKey(keys: seq<Uuid>, x: Uuid, y: Uuid, now: set<Uuid>, p: nat, cap: nat)
    requires p < |keys| <= cap && keys[p] == x && |keys| - p < cap && y in now
    requires forall q :: p < q < |keys| ==> keys[q] in now
    ensures Behind(LastOf(keys + [y], cap), x, now)
  {
    var all := keys + [y];
    var r := LastOf(all, cap);
    var d := |all| - |r|;
    assert forall q :: 0 <= q < |r| ==> r[q] == all[q + d];
    assert KeyAt(r, x, now, p - d);
  }

  /** Adding one more id to the cache keeps x in it when the ids after x still number fewer than `cap`. */
  lemma NewestFit(keys: seq<Uuid>, x: Uuid, y: Uuid, since: set<Uuid>, now: set<Uuid>, cap: nat)
    requires |keys| <= cap && Behind(keys, x, since) && NoDuplicates(keys) && |now| < cap && since <= now
    requires y != NIL_UUID && y != x ==> y in now
    ensures Behind(if y == NIL_UUID || y in keys then keys else LastOf(keys + [y], cap), x, now)
  {
    var p :| KeyAt(keys, x, since, p);
    if y == NIL_UUID || y in keys {
      assert KeyAt(keys, x, now, p);
    } else {
      assert keys[p] in keys;
      TailShort(keys, p, y, now);
      LastOfKeepsKey(keys, x, y, now, p, cap);
    }
  }

  /** Exactly-once effect. On every stream of deliveries, whatever the redelivery schedule, the handler
      runs for the first copy of an id and for no later copy up to position l, provided fewer than `cap`
      other ids come in between. */
  lemma HandlerRunsOnce(ds: seq<Uuid>, f: nat, l: nat, cap: nat)
    requires f <= l < |ds| && ds[f] != NIL_UUID && cap > 0
    requires ds[f] !in ds[..f] && |Others(Amid(ds, f, l), ds[f])| < cap
    ensures forall i :: 0 <= i <= l && ds[i] == ds[f] ==> (Handled(ds, i, cap) <==> i == f)
  {
    FirstCopyIsHandled(ds, f, cap);
    assert forall i :: 0 <= i < f ==> ds[..f][i] == ds[i];
    forall i | f < i <= l && ds[i] == ds[f]
      ensures !Handled(ds, i, cap)
    {
      OthersGrow(ds, f, i, l, ds[f]);
      StaysSeen(ds, f, i, cap);
      KeysAreLast(ds[..i], cap);
      SeenKeepsValid(After(ds[..i], cap), ds[i], cap);
    }
  }

  lemma FirstCopyIsHandled(ds: seq<Uuid>, f: nat, cap: nat)
    requires f < |ds| && ds[f] !in ds[..f] && cap > 0
    ensures Handled(ds, f, cap)
  {
    CacheIsWindow(ds[..f], cap);
    AcceptedCame(ds[..f], cap);
  }

  lemma {:induction false} AcceptedCame(ds: seq<Uuid>, cap: nat)
    ensures forall i :: 0 <= i < |Accepted(ds, cap)| ==> Accepted(ds, cap)[i] in ds
  {
    if ds != [] {
      var n := |ds| - 1;
      AcceptedCame(ds[..n], cap);
      assert ds == ds[..n] + [ds[n]];
    }
  }

  // ----- exactly when a copy reaches the handler again -----

  /** How many real ids the cache has taken in from delivery m up to n. */
  function TakenIn(ds: seq<Uuid>, m: nat, n: nat, cap: nat): (d: int)
    requires m <= n <= |ds|
  {
    |Accepted(ds[..n], cap)| - |Accepted(ds[..m], cap)|
  }

  ghost predicate HandledIn(ds: seq<Uuid>, m: nat, n: nat, y: Uuid, cap: nat)
    requires n <= |ds|
  {
    exists i: nat :: m <= i < n && ds[i] == y && Handled(ds, i, cap)
  }

  lemma AcceptedSnoc(ds: seq<Uuid>, n: nat, cap: nat)
    requires n < |ds|
    ensures Accepted(ds[..n + 1], cap)
         == Accepted(ds[..n], cap) + if ds[n] != NIL_UUID && Handled(ds, n, cap) then [ds[n]] else []
  {
    var es := ds[..n + 1];
    assert es[..n] == ds[..n];
  }

  /** What is accepted from m on was handled from m on. */
  lemma {:induction false} AcceptedSince(ds: seq<Uuid>, m: nat, n: nat, cap: nat)
    requires m <= n <= |ds|
    ensures Accepted(ds[..m], cap) <= Accepted(ds[..n], cap)
    ensures forall y | y in Accepted(ds[..n], cap)[|Accepted(ds[..m], cap)|..] :: HandledIn(ds, m, n, y, cap)
    decreases n
  {
    if m < n {
      AcceptedSince(ds, m, n - 1, cap);
      AcceptedSnoc(ds, n - 1, cap);
      SinceStep(ds, Accepted(ds[..m], cap), Accepted(ds[..n - 1], cap), Accepted(ds[..n], cap), m, n, cap);
    }
  }

  lemma SinceStep(ds: seq<Uuid>, a: seq<Uuid>, b: seq<Uuid>, c: seq<Uuid>, m: nat, n: nat, cap: nat)
    requires m < n <= |ds| && a <= b && forall y | y in b[|a|..] :: HandledIn(ds, m, n - 1, y, cap)
    requires c == b || (c == b + [ds[n - 1]] && Handled(ds, n - 1, cap))
    ensures a <= c && forall y | y in c[|a|..] :: HandledIn(ds, m, n, y, cap)
  {
    forall y | y in c[|a|..] ensures HandledIn(ds, m, n, y, cap) {
      TailOfSum(b, [ds[n - 1]], |a|);
      if y in b[|a|..] {
        HandledInMore(ds, m, n, y, cap);
      } else {
        assert y == ds[n - 1];
      }
    }
  }

  lemma TailOfSum(b: seq<Uuid>, last: seq<Uuid>, k: nat)
    requires k <= |b|
    ensures (b + last)[k..] == b[k..] + last
  {
  }

  lemma HandledInMore(ds: seq<Uuid>, m: nat, n: nat, y: Uuid, cap: nat)
    requires 0 < n <= |ds| && HandledIn(ds, m, n - 1, y, cap)
    ensures HandledIn(ds, m, n, y, cap)
  {
    var i: nat :| m <= i < n - 1 && ds[i] == y && Handled(ds, i, cap);
    assert m <= i < n;
  }

  lemma LastOfSplit(a: seq<Uuid>, x: Uuid, mid: seq<Uuid>, cap: nat)
    requires x !in mid && cap > 0
    ensures x in LastOf(a + [x] + mid, cap) <==> |mid| < cap
  {
    var all := a + [x] + mid;
    var r := LastOf(all, cap);
    if |mid| < cap {
      assert r[|a| - (|all| - |r|)] == x;
    } else {
      assert r == mid[|mid| - cap..];
    }
  }

  /** The exact condition. Once the handler has run for copy f of an id and for no copy since, it runs for
      the next copy n if and only if the cache has taken in at least `cap` ids in between. */
  lemma HandledAgainIff(ds: seq<Uuid>, f: nat, n: nat, cap: nat)
    requires f < n < |ds| && ds[n] == ds[f] != NIL_UUID && cap > 0
    requires Handled(ds, f, cap) && !HandledIn(ds, f + 1, n, ds[f], cap)
    ensures Handled(ds, n, cap) <==> TakenIn(ds, f + 1, n, cap) >= cap
  {
    var x := ds[f];
    AcceptedSnoc(ds, f, cap);
    AcceptedSince(ds, f + 1, n, cap);
    var a, all := Accepted(ds[..f], cap), Accepted(ds[..n], cap);
    var mid := all[|a| + 1..];
    assert all == a + [x] + mid;
    CacheIsWindow(ds[..n], cap);
    LastOfSplit(a, x, mid, cap);
  }

  /** The bound is tight: after exactly `cap` other new ids the next copy reaches the handler again. */
  lemma BoundIsTight(x: Uuid, others: seq<Uuid>, cap: nat)
    requires cap > 0 && |others| == cap && NoDuplicates([x] + others)
    requires NIL_UUID !in [x] + others
    ensures Handled([x] + others + [x], 0, cap) && Handled([x] + others + [x], cap + 1, cap)
  {
    var ds := [x] + others + [x];
    var front := [x] + others;
    FirstCopyIsHandled(ds, 0, cap);
    assert ds[..cap + 1] == front;
    AllAccepted(front, cap);
    CacheIsWindow(front, cap);
    assert front[1..] == others;
    assert x !in others by {
      forall i | 0 <= i < |others| ensures others[i] != x { assert front[i + 1] != front[0]; }
    }
  }

  lemma {:induction false} AllAccepted(ds: seq<Uuid>, cap: nat)
    requires cap > 0 && NoDuplicates(ds) && NIL_UUID !in ds
    ensures Accepted(ds, cap) == ds
  {
    if ds != [] {
      var n := |ds| - 1;
      FrontIsNew(ds, n);
      AllAccepted(ds[..n], cap);
      FirstCopyIsHandled(ds, n, cap);
    }
  }

  lemma FrontIsNew(ds: seq<Uuid>, n: nat)
    requires NoDuplicates(ds) && NIL_UUID !in ds && |ds| == n + 1
    ensures NoDuplicates(ds[..n]) && NIL_UUID !in ds[..n] && ds[n] !in ds[..n] && ds[n] != NIL_UUID
    ensures ds == ds[..n] + [ds[n]]
  {
  }
}
