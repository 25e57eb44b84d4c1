/** Access control patterns: the level-by-level loop of matchTopic against the language of topic
    filters of section 4.7.1 of MQTT Version 3.1.1. */
module TopicMatch {

  type Levels = seq<string>

  /** strings.Split(s, "/"): always at least one level. */
  function Split(s: string): (ls: Levels)
    ensures ls != []
  {
    if s == "" then [""]
    else
      var rest := Split(s[1..]);
      if s[0] == '/' then [""] + rest else [[s[0]] + rest[0]] + rest[1..]
  }

  /** Levels with a slash between them. */
  function Join(ls: Levels): (s: string)
    requires ls != []
  {
    if |ls| == 1 then ls[0] else ls[0] + "/" + Join(ls[1..])
  }

  predicate SlashFree(ls: Levels)
  {
    forall i :: 0 <= i < |ls| ==> '/' !in ls[i]
  }

  lemma Regroup(x: string, a: string, b: string)
    ensures (x + a) + "/" + b == x + (a + "/" + b)
  {
  }

  lemma JoinPut(x: string, ls: Levels)
    requires ls != []
    ensures Join([x + ls[0]] + ls[1..]) == x + Join(ls)
  {
    assert ([x + ls[0]] + ls[1..])[1..] == ls[1..];
    if |ls| > 1 { Regroup(x, ls[0], Join(ls[1..])); }
  }

  /** The levels hold no slash, and joined with slashes they are the name again. */
  lemma {:induction false} SplitJoins(s: string)
    ensures SlashFree(Split(s)) && Join(Split(s)) == s
  {
    if s != "" {
      SplitJoins(s[1..]);
      var rest := Split(s[1..]);
      assert s == [s[0]] + s[1..];
      if s[0] == '/' {
        assert ([""] + rest)[1..] == rest;
      } else {
        JoinPut([s[0]], rest);
        assert rest == [rest[0]] + rest[1..];
      }
    }
  }

  lemma {:induction false} SplitFirst(a: string, rest: string)
    requires '/' !in a
    ensures Split(a + rest) == [a + Split(rest)[0]] + Split(rest)[1..]
    decreases |a|
  {
    if a == "" {
      assert a + rest == rest && "" + Split(rest)[0] == Split(rest)[0];
    } else {
      assert a[0] in a && (a + rest)[1..] == a[1..] + rest;
      SplitFirst(a[1..], rest);
      assert [a[0]] + (a[1..] + Split(rest)[0]) == a + Split(rest)[0];
    }
  }

  /** And no other levels without slashes are. */
  lemma {:induction false} SplitOnly(ls: Levels)
    requires ls != [] && SlashFree(ls)
    ensures Split(Join(ls)) == ls
    decreases |ls|
  {
    assert '/' !in ls[0];
    if |ls| == 1 {
      SplitFirst(ls[0], "");
      assert ls[0] + "" == ls[0];
    } else {
      SplitOnly(ls[1..]);
      var tail := "/" + Join(ls[1..]);
      assert tail[1..] == Join(ls[1..]) && ls[0] + "/" + Join(ls[1..]) == ls[0] + tail;
      SplitFirst(ls[0], tail);
      assert ls[0] + "" == ls[0];
    }
  }

  /** A topic's levels belong to a pattern: `+` is any one level, `#` the rest, none included. */
  predicate Matches(p: Levels, t: Levels)
  {
    if p == [] then t == []
    else if p[0] == "#" then true
    else t != [] && (p[0] == "+" || p[0] == t[0]) && Matches(p[1..], t[1..])
  }

  /** Level by level: up to the first `#` of the pattern, or its end, each level is the topic's or a `+`; without
      a `#` there are no more levels. */
  lemma {:induction false} MatchesIff(p: Levels, t: Levels, n: nat)
    requires n <= |p| && "#" !in p[..n] && (n < |p| ==> p[n] == "#")
    ensures Matches(p, t) <==>
              (if n < |p| then n <= |t| else |t| == n) && forall i | 0 <= i < n && i < |t| :: p[i] == "+" || p[i] == t[i]
    decreases n
  {
    if n > 0 {
      assert p[0] == p[..n][0] && p[1..][..n - 1] == p[..n][1..];
      if t != [] {
        MatchesIff(p[1..], t[1..], n - 1);
        assert forall i | 0 < i < n && i < |t| :: p[i] == p[1..][i - 1] && t[i] == t[1..][i - 1];
        if forall i | 0 <= i < n - 1 && i < |t[1..]| :: p[1..][i] == "+" || p[1..][i] == t[1..][i] {
          forall i | 0 < i < n && i < |t| ensures p[i] == "+" || p[i] == t[i] {
            assert p[1..][i - 1] == "+" || p[1..][i - 1] == t[1..][i - 1];
          }
        }
      }
    }
  }

  method MatchTopic(pattern: string, topic: string) returns (ok: bool)
    ensures ok <==> Matches(Split(pattern), Split(topic))
  {
    if pattern == "#" {
      assert pattern[1..] == "" && Split("") == [""];
      assert ['#'] + "" == "#";
      assert Split(pattern)[0] == "#";
      return true;
    }
    var pParts, tParts := Split(pattern), Split(topic);
    for i := 0 to |pParts|
      invariant i <= |tParts|
      invariant Matches(pParts, tParts) <==> Matches(pParts[i..], tParts[i..])
    {
      if pParts[i] == "#" {
        return true;
      }
      if i >= |tParts| {
        return false;
      }
      if pParts[i] != "+" && pParts[i] != tParts[i] {
        return false;
      }
      assert pParts[i..][1..] == pParts[i + 1..] && tParts[i..][1..] == tParts[i + 1..];
    }
    ok := |tParts| == |pParts|;
  }

  /** CanPublish and CanSubscribe: an administrator, an empty list, or a matching pattern. */
  method Allowed(admin: bool, patterns: seq<string>, name: string) returns (ok: bool)
    ensures ok <==> admin || patterns == [] || exists i :: 0 <= i < |patterns| && Matches(Split(patterns[i]), Split(name))
  {
    if admin {
      return true;
    }
    for i := 0 to |patterns|
      invariant forall j :: 0 <= j < i ==> !Matches(Split(patterns[j]), Split(name))
    {
      var hit := MatchTopic(patterns[i], name);
      if hit {
        return true;
      }
    }
    ok := |patterns| == 0;
  }

  /** Every topic of f is a topic of p. A topic has at least one level. */
  ghost predicate Covers(p: Levels, f: Levels)
  {
    forall t: Levels :: t != [] && Matches(f, t) ==> Matches(p, t)
  }

  lemma {:induction false} MatchCarries(p: Levels, f: Levels, t: Levels)
    requires "#" !in f && Matches(p, f) && Matches(f, t)
    ensures Matches(p, t)
    decreases |f|
  {
    if p != [] && p[0] != "#" {
      assert f[0] in f;
      MatchCarries(p[1..], f[1..], t[1..]);
    }
  }

  /** A topic of f whose `+` levels are all z. */
  function Instance(f: Levels, z: string): (t: Levels)
    ensures |t| == |f|
  {
    if f == [] then [] else [if f[0] == "+" then z else f[0]] + Instance(f[1..], z)
  }

  lemma {:induction false} InstanceMatches(f: Levels, z: string)
    requires "#" !in f
    ensures Matches(f, Instance(f, z))
    decreases |f|
  {
    if f != [] {
      assert f[0] in f;
      InstanceMatches(f[1..], z);
    }
  }

  lemma {:induction false} InstanceDecides(p: Levels, f: Levels, z: string)
    requires "#" !in f && z !in p && Matches(p, Instance(f, z))
    ensures Matches(p, f)
    decreases |p|
  {
    if p != [] && p[0] != "#" {
      assert Instance(f, z)[1..] == Instance(f[1..], z);
      assert p[0] in p;
      InstanceDecides(p[1..], f[1..], z);
    }
  }

  /** A level that occurs nowhere in p. */
  function Unused(p: Levels): (z: string)
    ensures z !in p && forall i :: 0 <= i < |p| ==> |p[i]| < |z|
  {
    if p == [] then "x"
    else
      var z := Unused(p[1..]);
      assert p == [p[0]] + p[1..];
      if |p[0]| < |z| then z else z + p[0] + "x"
  }

  /** Matching a pattern against a filter without `#`, as the subscribe check does, decides exactly whether the
      pattern covers every topic of the filter. */
  lemma MatchIsCoverage(p: Levels, f: Levels)
    requires "#" !in f && f != []
    ensures Matches(p, f) <==> Covers(p, f)
  {
    if Matches(p, f) {
      forall t: Levels | t != [] && Matches(f, t) ensures Matches(p, t) {
        MatchCarries(p, f, t);
      }
    }
    if Covers(p, f) {
      var z := Unused(p);
      InstanceMatches(f, z);
      InstanceDecides(p, f, z);
    }
  }

  // ----- filters with `#` -----

  /** The first `#` of f is its level m. */
  predicate HashAt(f: Levels, m: nat)
  {
    m < |f| && f[m] == "#" && "#" !in f[..m]
  }

  /** p meets that `#` with a `+`: it follows f level by level up to there, and its remaining levels match the
      remaining levels of f. */
  predicate PlusMeetsHash(p: Levels, f: Levels, m: nat)
    requires HashAt(f, m)
  {
    && m < |p| && p[m] == "+" && Matches(p[m + 1..], f[m + 1..])
    && forall i | 0 <= i < m :: p[i] != "#" && (p[i] == "+" || p[i] == f[i])
  }

  /** Such a meeting lets topics through, unless it is at the first level and the pattern goes on with `#`. */
  predicate MeetingIsOpen(p: Levels, m: nat)
    requires m < |p|
  {
    m == 0 ==> |p| == 1 || p[1] != "#"
  }

  lemma TailHash(f: Levels, m: nat)
    requires HashAt(f, m) && m > 0
    ensures f[0] != "#" && HashAt(f[1..], m - 1)
  {
    assert f[0] == f[..m][0];
    assert f[1..][..m - 1] == f[..m][1..];
  }

  lemma TailMeets(p: Levels, f: Levels, m: nat)
    requires HashAt(f, m) && m > 0 && p != [] && HashAt(f[1..], m - 1)
    ensures PlusMeetsHash(p, f, m) <==>
              p[0] != "#" && (p[0] == "+" || p[0] == f[0]) && PlusMeetsHash(p[1..], f[1..], m - 1)
  {
    if m < |p| {
      assert p[1..][m..] == p[m + 1..] && f[1..][m..] == f[m + 1..];
      assert forall i | 0 <= i < m - 1 :: p[1..][i] == p[i + 1] && f[1..][i] == f[i + 1];
      if PlusMeetsHash(p[1..], f[1..], m - 1) && p[0] != "#" && (p[0] == "+" || p[0] == f[0]) {
        forall i | 0 <= i < m ensures p[i] != "#" && (p[i] == "+" || p[i] == f[i]) {
          assert i > 0 ==> p[1..][i - 1] == p[i] && f[1..][i - 1] == f[i];
        }
      }
    }
  }

  /** A topic of f outside p, when p meets the `#` of f with a `+`: the levels before it, and no more. */
  lemma {:induction false} MeetingIsAGap(p: Levels, f: Levels, m: nat, z: string)
    requires HashAt(f, m) && PlusMeetsHash(p, f, m)
    ensures Matches(p, f) && Matches(f, Instance(f[..m], z)) && !Matches(p, Instance(f[..m], z))
    decreases m
  {
    if m == 0 {
      assert f[..0] == [];
    } else {
      TailHash(f, m);
      TailMeets(p, f, m);
      MeetingIsAGap(p[1..], f[1..], m - 1, z);
      assert f[1..][..m - 1] == f[..m][1..];
      assert Instance(f[..m], z)[1..] == Instance(f[1..][..m - 1], z);
    }
  }

  lemma {:induction false} GapIsAMeeting(p: Levels, f: Levels, m: nat, t: Levels)
    requires HashAt(f, m) && Matches(p, f) && Matches(f, t) && !Matches(p, t)
    ensures PlusMeetsHash(p, f, m)
    decreases m
  {
    if m > 0 {
      TailHash(f, m);
      GapIsAMeeting(p[1..], f[1..], m - 1, t[1..]);
      TailMeets(p, f, m);
    }
  }

  lemma FirstLevelGap(p: Levels, f: Levels, a: string)
    requires HashAt(f, 0) && PlusMeetsHash(p, f, 0) && MeetingIsOpen(p, 0)
    ensures Matches(f, [a]) && Matches(f, [a, a]) && (!Matches(p, [a]) || !Matches(p, [a, a]))
  {
    assert [a][1..] == [] && [a, a][1..] == [a];
  }

  /** With `#` in the filter matching no longer decides coverage: the subscribe check lets a filter through
      although the pattern does not cover its topics, exactly when the pattern meets the filter's first `#`
      with a `+`, other than a leading `#` with a leading `+` and `#`. */
  lemma HashFilterIsNotCoveredIff(p: Levels, f: Levels, m: nat)
    requires HashAt(f, m)
    ensures Matches(p, f) && !Covers(p, f) <==> PlusMeetsHash(p, f, m) && MeetingIsOpen(p, m)
  {
    if PlusMeetsHash(p, f, m) && MeetingIsOpen(p, m) {
      MeetingIsAGap(p, f, m, "");
      if m == 0 { FirstLevelGap(p, f, ""); }
    }
    if Matches(p, f) && !Covers(p, f) {
      var t: Levels :| t != [] && Matches(f, t) && !Matches(p, t);
      GapIsAMeeting(p, f, m, t);
    }
  }

  /** The shortest case: `+` is let subscribe to `#`, and receives topics of any depth. */
  lemma HashFilterIsNotCovered(a: string, b: string)
    ensures Matches(["+"], ["#"]) && Matches(["#"], [a, b]) && !Matches(["+"], [a, b]) && !Covers(["+"], ["#"])
  {
    assert ["+"][1..] == [] && [a, b][1..] == [b] && ["#"][1..] == [];
    assert !Matches([], [b]);
  }

  /** The shortest topic of f whose `+` levels are all z. */
  function Shortest(f: Levels, z: string): (t: Levels)
  {
    if f == [] || f[0] == "#" then [] else [if f[0] == "+" then z else f[0]] + Shortest(f[1..], z)
  }

  lemma {:induction false} ShortestMatches(f: Levels, z: string)
    ensures Matches(f, Shortest(f, z))
    decreases |f|
  {
    if f != [] && f[0] != "#" {
      ShortestMatches(f[1..], z);
    }
  }

  lemma {:induction false} OutsideTopic(p: Levels, f: Levels, z: string) returns (t: Levels)
    requires z !in p && !Matches(p, f)
    ensures Matches(f, t) && !Matches(p, t) && (f != [] && f[0] != "#" ==> t != [])
    decreases |f|
  {
    if f != [] && f[0] == "#" {
      t := if p == [] then [z] else [];
    } else {
      t := Shortest(f, z);
      ShortestMatches(f, z);
      if f != [] && p != [] {
        assert p[0] in p;
        if p[0] == "+" || p[0] == f[0] {
          var rest := OutsideTopic(p[1..], f[1..], z);
          t := [t[0]] + rest;
          assert t[1..] == rest;
        }
      }
    }
  }

  /** The check errs in that direction only: whatever filter it refuses is not covered. */
  lemma RefusedIsNotCovered(p: Levels, f: Levels)
    requires !Matches(p, f) && f != []
    ensures !Covers(p, f)
  {
    var z := Unused(p);
    if f[0] == "#" {
      assert [z][1..] == [] && [z, z][1..] == [z];
      if p != [] { assert p[0] in p; }
      assert Matches(f, [z]) && Matches(f, [z, z]) && (!Matches(p, [z]) || !Matches(p, [z, z]));
    } else {
      var t := OutsideTopic(p, f, z);
    }
  }
}
