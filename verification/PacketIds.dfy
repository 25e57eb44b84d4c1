/** The session's packet id allocator: a 16-bit cursor that wraps past zero and skips ids that
    are still inflight. */
module PacketIds {
  import opened Bytes

  /** Ids 1..65535. */
  const IDS: nat := 65535

  /** The id under the cursor after it has moved p places from its start. */
  function IdAt(p: nat): (id: uint16)
    ensures 1 <= id <= IDS
  {
    1 + p % IDS
  }

  ghost predicate SomeFree(used: set<uint16>)
  {
    exists id: uint16 :: 1 <= id && id !in used
  }

  /** p is where a cursor starting at c stops: the first place whose id is not in use. */
  predicate StopsAt(c: nat, used: set<uint16>, p: nat)
  {
    c <= p && IdAt(p) !in used && forall q :: c <= q < p ==> IdAt(q) in used
  }

  /** The distance from c to a given id. */
  lemma IdIsReached(c: nat, id: uint16) returns (d: nat)
    requires 1 <= id
    ensures d < IDS && IdAt(c + d) == id
  {
    var r := c % IDS;
    d := if id - 1 >= r then id - 1 - r else id - 1 - r + IDS;
    var q := c / IDS;
    assert c == IDS * q + r;
    if id - 1 >= r {
      ModUnique(c + d, IDS, q, id - 1);
    } else {
      ModUnique(c + d, IDS, q + 1, id - 1);
    }
  }

  class Allocator {
    var nextPktId: uint16
    var inflight: set<uint16>
    ghost var position: nat  // how far the cursor has moved in all

    ghost predicate Valid()
      reads this
    {
      nextPktId == IdAt(position)
    }

    constructor ()
      ensures Valid() && position == 0 && inflight == {}
    {
      nextPktId, inflight, position := 1, {}, 0;
    }

    /** allocPacketID. Were every id inflight the loop would never end, so one must be free. Then it
        stops within 65535 steps, at the first free id from the cursor on. */
    method Alloc() returns (id: uint16)
      requires Valid() && SomeFree(inflight)
      modifies this`nextPktId, this`position
      ensures Valid()
      ensures id != 0 && id !in inflight
      ensures old(position) < position <= old(position) + IDS
      ensures id == IdAt(position - 1) && StopsAt(old(position), inflight, position - 1)
    {
      ghost var c := position;
      ghost var open: uint16 :| 1 <= open && open !in inflight;
      ghost var d := IdIsReached(c, open);
      while true
        invariant Valid() && c <= position <= c + d
        invariant forall q :: c <= q < position ==> IdAt(q) in inflight
        decreases c + d - position
      {
        id := nextPktId;
        Advance();
        if id !in inflight {
          return;
        }
      }
    }

    /** nextPktID++ on a uint16, with zero skipped. */
    method Advance()
      requires Valid()
      modifies this`nextPktId, this`position
      ensures Valid() && position == old(position) + 1
    {
      CursorStep(position);
      position := position + 1;
      nextPktId := (nextPktId + 1) % TWO_16;
      if nextPktId == 0 {
        nextPktId := 1;
      }
    }
  }

  lemma CursorStep(p: nat)
    ensures IdAt(p + 1) == if IdAt(p) == IDS then 1 else IdAt(p) + 1
  {
    var q, r := p / IDS, p % IDS;
    assert p == IDS * q + r;
    if r == IDS - 1 {
      ModUnique(p + 1, IDS, q + 1, 0);
    } else {
      ModUnique(p + 1, IDS, q, r + 1);
    }
  }

  /** The same id comes back only after the cursor has gone all the way round. */
  lemma SameIdFullCycle(p: nat, q: nat)
    requires p < q && IdAt(p) == IdAt(q)
    ensures q - p >= IDS
  {
    var a, b := p / IDS, q / IDS;
    assert p == IDS * a + p % IDS && q == IDS * b + q % IDS;
    assert q - p == IDS * b - IDS * a;
    assert IDS * (b - a) == IDS * b - IDS * a;
    if b > a {
      MulAtLeast(IDS, b - a);
    }
  }

  /** Two places give the same id exactly when they are whole cycles apart. */
  lemma SameIdIff(p: nat, q: nat)
    requires p <= q
    ensures IdAt(p) == IdAt(q) <==> (q - p) % IDS == 0
  {
    var a, b, d := p / IDS, q / IDS, (q - p) / IDS;
    assert p == IDS * a + p % IDS && q == IDS * b + q % IDS && q - p == IDS * d + (q - p) % IDS;
    if p % IDS == q % IDS {
      assert IDS * (b - a) == IDS * b - IDS * a;
      ModUnique(q - p, IDS, b - a, 0);
    }
    if (q - p) % IDS == 0 {
      assert IDS * (a + d) == IDS * a + IDS * d;
      ModUnique(q, IDS, a + d, p % IDS);
    }
  }

  // ----- runs of allocations -----

  /** A run: places[i] is where call number i stopped, with whatever was inflight then. */
  ghost predicate AllocRun(start: nat, useds: seq<set<uint16>>, places: seq<nat>)
  {
    && |useds| == |places|
    && forall i :: 0 <= i < |places| ==> StopsAt(if i == 0 then start else places[i - 1] + 1, useds[i], places[i])
  }

  lemma {:induction false} PlacesIncrease(start: nat, useds: seq<set<uint16>>, places: seq<nat>, i: nat, j: nat)
    requires AllocRun(start, useds, places) && i < j < |places|
    ensures places[i] < places[j]
    decreases j
  {
    assert StopsAt(places[j - 1] + 1, useds[j], places[j]);
    if i < j - 1 {
      PlacesIncrease(start, useds, places, i, j - 1);
    }
  }

  /** Over any run of calls, however the inflight table changes in between: no call returns an id that
      is inflight, and two calls return the same id only if the cursor has moved at least 65535 places
      in between. So ids handed out within one cycle are distinct even before they are entered in the
      table. */
  lemma IdsDistinctWithinCycle(start: nat, useds: seq<set<uint16>>, places: seq<nat>)
    requires AllocRun(start, useds, places)
    ensures forall i :: 0 <= i < |places| ==> IdAt(places[i]) !in useds[i]
    ensures forall i, j :: 0 <= i < j < |places| && IdAt(places[i]) == IdAt(places[j]) ==> places[j] - places[i] >= IDS
  {
    forall i | 0 <= i < |places| ensures IdAt(places[i]) !in useds[i] {
      assert StopsAt(if i == 0 then start else places[i - 1] + 1, useds[i], places[i]);
    }
    forall i, j | 0 <= i < j < |places| && IdAt(places[i]) == IdAt(places[j])
      ensures places[j] - places[i] >= IDS
    {
      PlacesIncrease(start, useds, places, i, j);
      SameIdFullCycle(places[i], places[j]);
    }
  }

  /** A call returns whenever some id is free. */
  lemma FreeMeansReturns(c: nat, used: set<uint16>) returns (p: nat)
    requires SomeFree(used)
    ensures StopsAt(c, used, p) && p < c + IDS
  {
    var open: uint16 :| 1 <= open && open !in used;
    var d := IdIsReached(c, open);
    p := c;
    while IdAt(p) in used
      invariant c <= p <= c + d && forall q :: c <= q < p ==> IdAt(q) in used
      decreases c + d - p
    {
      p := p + 1;
    }
  }
}
