/** Byte strings, the big-endian integers of Go's encoding/binary, and the
    lexicographic order in which Badger keeps its keys. */
module Bytes {

  type byte = x: int | 0 <= x < 256
  type Bytes = seq<byte>

  const TWO_16: int := 0x1_0000
  const TWO_63: int := 0x8000_0000_0000_0000
  const TWO_64: int := 0x1_0000_0000_0000_0000

  type uint16 = x: int | 0 <= x < TWO_16
  type uint64 = x: int | 0 <= x < TWO_64
  type int64 = x: int | -TWO_63 <= x < TWO_63

  /** A 16-byte UUID. */
  type Uuid = u: Bytes | |u| == 16 witness [0, 0, 0, 0, 0, 0, 0, 0, 0, 0, 0, 0, 0, 0, 0, 0]

  const NIL_UUID: Uuid := [0, 0, 0, 0, 0, 0, 0, 0, 0, 0, 0, 0, 0, 0, 0, 0]

  /** 256 to the power n. */
  function Pow256(n: nat): (p: nat)
    ensures p > 0
  {
    if n == 0 then 1 else 256 * Pow256(n - 1)
  }

  /** PutUint16 / PutUint64: the `width` low bytes of x, most significant first. */
  function PutUint(x: nat, width: nat): (b: Bytes)
    ensures |b| == width
  {
    if width == 0 then [] else PutUint(x / 256, width - 1) + [x % 256]
  }

  /** Uint16 / Uint64: the value of a big-endian byte string. */
  function GetUint(b: Bytes): (x: nat)
  {
    if b == [] then 0 else GetUint(b[..|b| - 1]) * 256 + b[|b| - 1]
  }

  lemma Pow256Small()
    ensures Pow256(2) == TWO_16 && Pow256(8) == TWO_64
  {
    assert Pow256(4) == 256 * Pow256(3) == 256 * 256 * Pow256(2);
    assert Pow256(8) == 256 * Pow256(7) == 256 * 256 * Pow256(6) == 256 * 256 * 256 * Pow256(5);
  }

  lemma {:induction false} GetUintBound(b: Bytes)
    ensures GetUint(b) < Pow256(|b|)
  {
    if b != [] {
      GetUintBound(b[..|b| - 1]);
    }
  }

  /** Writing and reading back keeps the value modulo 256^width. */
  lemma {:induction false} GetPut(x: nat, width: nat)
    ensures GetUint(PutUint(x, width)) == x % Pow256(width)
  {
    if width > 0 {
      var b := PutUint(x, width);
      assert b[..|b| - 1] == PutUint(x / 256, width - 1);
      GetPut(x / 256, width - 1);
      ModSplit(x, Pow256(width - 1));
    }
  }

  lemma ModSplit(x: nat, m: nat)
    requires m > 0
    ensures (x / 256) % m * 256 + x % 256 == x % (256 * m)
  {
    var q := x / 256;
    var a := q / m;
    assert x == 256 * q + x % 256;
    assert q == m * a + q % m;
    var r := q % m * 256 + x % 256;
    assert 256 * (m * a) == (256 * m) * a;
    assert x == (256 * m) * a + r;
    assert 0 <= r < 256 * m;
    ModUnique(x, 256 * m, a, r);
  }

  lemma ModUnique(x: int, m: nat, a: int, r: int)
    requires m > 0 && x == m * a + r && 0 <= r < m
    ensures x % m == r
  {
    var q := x / m;
    var d := a - q;
    assert x == m * q + x % m;
    assert m * d == m * a - m * q;
    if d >= 1 {
      MulAtLeast(m, d);
    } else if d <= -1 {
      assert m * -d == -(m * d);
      MulAtLeast(m, -d);
    }
  }

  lemma {:induction false} MulAtLeast(m: nat, d: nat)
    requires d >= 1
    ensures m * d >= m
    decreases d
  {
    if d > 1 {
      MulAtLeast(m, d - 1);
      assert m * d == m * (d - 1) + m;
    }
  }

  lemma {:induction false} PutGet(b: Bytes)
    ensures PutUint(GetUint(b), |b|) == b
  {
    if b != [] {
      var front, last := b[..|b| - 1], b[|b| - 1];
      PutGet(front);
      assert GetUint(b) == GetUint(front) * 256 + last;
      assert GetUint(b) / 256 == GetUint(front) && GetUint(b) % 256 == last;
    }
  }

  /** Most significant first: a byte weighs 256 to the number of bytes after it. */
  lemma {:induction false} BigEndian(a: Bytes, b: Bytes)
    ensures GetUint(a + b) == GetUint(a) * Pow256(|b|) + GetUint(b)
    decreases |b|
  {
    if b == [] {
      assert a + b == a;
    } else {
      var front, last := b[..|b| - 1], b[|b| - 1];
      BigEndian(a, front);
      assert (a + b)[..|a + b| - 1] == a + front;
      assert GetUint(a) * Pow256(|front|) * 256 == GetUint(a) * Pow256(|b|);
    }
  }

  lemma ByteValue(x: byte)
    ensures GetUint([x]) == x
  {
    assert [x][..0] == [];
    assert GetUint([]) == 0;
  }

  /** The two bytes of a 16-bit field. */
  lemma TwoBytes(hi: byte, lo: byte)
    ensures GetUint([hi, lo]) == 256 * hi + lo && Put16(256 * hi + lo) == [hi, lo]
  {
    BigEndian([hi], [lo]);
    ByteValue(hi);
    ByteValue(lo);
    assert Pow256(1) == 256 * Pow256(0) == 256;
    assert [hi] + [lo] == [hi, lo];
    PutGet([hi, lo]);
  }

  function Put16(x: nat): (b: Bytes)
    ensures |b| == 2
  {
    PutUint(x, 2)
  }

  function Put64(x: nat): (b: Bytes)
    ensures |b| == 8
  {
    PutUint(x, 8)
  }

  lemma Get16(x: nat)
    ensures GetUint(Put16(x)) == x % TWO_16
  {
    GetPut(x, 2);
    Pow256Small();
  }

  lemma Get64(x: nat)
    ensures GetUint(Put64(x)) == x % TWO_64
  {
    GetPut(x, 8);
    Pow256Small();
  }

  /** Go's conversion uint64(x) of an int64, and int64(u) back. */
  function AsUnsigned(x: int64): (u: uint64)
    ensures AsSigned(u) == x
  {
    if x < 0 then x + TWO_64 else x
  }

  function AsSigned(u: uint64): (x: int64)
  {
    if u < TWO_63 then u else u - TWO_64
  }

  /** UnixNano() of a clock value outside the int64 range wraps. */
  function WrapSigned(t: int): (x: int64)
    ensures -TWO_63 <= t < TWO_63 ==> x == t
  {
    AsSigned(t % TWO_64)
  }

  lemma Reassociate(a: Bytes, b: Bytes, c: Bytes, d: Bytes)
    ensures a + (b + c + d) == a + b + (c + d) == (a + b + c) + d
  {
    assert a + (b + c + d) == a + b + (c + d);
    assert a + b + (c + d) == (a + b + c) + d;
  }

  predicate IsPrefix(p: Bytes, b: Bytes)
  {
    |p| <= |b| && b[..|p|] == p
  }

  /** Strict lexicographic order on byte strings (a proper prefix comes first). */
  predicate Less(a: Bytes, b: Bytes)
  {
    b != [] && (a == [] || a[0] < b[0] || (a[0] == b[0] && Less(a[1..], b[1..])))
  }

  predicate AtMost(a: Bytes, b: Bytes)
  {
    a == b || Less(a, b)
  }

  lemma {:induction false} LessIrreflexive(a: Bytes)
    ensures !Less(a, a)
  {
    if a != [] { LessIrreflexive(a[1..]); }
  }

  lemma {:induction false} LessTransitive(a: Bytes, b: Bytes, c: Bytes)
    requires Less(a, b) && Less(b, c)
    ensures Less(a, c)
  {
    if a != [] && a[0] == b[0] == c[0] { LessTransitive(a[1..], b[1..], c[1..]); }
  }

  lemma {:induction false} LessAfterPrefix(p: Bytes, a: Bytes, b: Bytes)
    ensures Less(p + a, p + b) <==> Less(a, b)
  {
    if p == [] {
      assert p + a == a && p + b == b;
    } else {
      assert (p + a)[1..] == p[1..] + a && (p + b)[1..] == p[1..] + b;
      LessAfterPrefix(p[1..], a, b);
    }
  }
}
