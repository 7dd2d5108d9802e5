/** Byte strings: the byte-wise order of `bytes.Compare`, and the fixed-width
    big-endian integers the store keys are built from. */
module Bytes {

  newtype byte = x: int | 0 <= x < 256
  type Bytes = seq<byte>

  datatype Option<+T> = None | Some(value: T)

  /** `bytes.Compare(a, b) == -1`. */
  predicate Less(a: Bytes, b: Bytes) {
    if b == [] then false
    else if a == [] then true
    else a[0] < b[0] || (a[0] == b[0] && Less(a[1..], b[1..]))
  }

  /** They agree up to some place, where a ends first or has the smaller byte. */
  ghost predicate FirstDiffersAt(a: Bytes, b: Bytes, i: nat) {
    i <= |a| && i < |b| && a[..i] == b[..i] && (i == |a| || a[i] < b[i])
  }

  lemma {:induction false} LessExactly(a: Bytes, b: Bytes)
    ensures Less(a, b) <==> exists i: nat :: FirstDiffersAt(a, b, i)
  {
    if a == [] {
      if b != [] { assert FirstDiffersAt(a, b, 0); }
    } else if b != [] && a[0] == b[0] {
      LessExactly(a[1..], b[1..]);
      if i: nat :| FirstDiffersAt(a[1..], b[1..], i) {
        assert a[..i + 1] == [a[0]] + a[1..][..i] && b[..i + 1] == [b[0]] + b[1..][..i];
        assert FirstDiffersAt(a, b, i + 1);
      }
      if i: nat :| FirstDiffersAt(a, b, i) {
        assert i > 0 && a[1..][..i - 1] == a[..i][1..] && b[1..][..i - 1] == b[..i][1..];
        assert FirstDiffersAt(a[1..], b[1..], i - 1);
      }
    } else if b != [] {
      if a[0] < b[0] { assert a[..0] == b[..0] && FirstDiffersAt(a, b, 0); }
      forall i: nat | FirstDiffersAt(a, b, i) ensures a[0] < b[0] {
        if i > 0 { assert a[..i][0] == b[..i][0]; }
      }
    }
  }

  lemma {:induction false} LessIsIrreflexive(a: Bytes)
    ensures !Less(a, a)
  {
    if a != [] { LessIsIrreflexive(a[1..]); }
  }

  lemma {:induction false} LessIsTransitive(a: Bytes, b: Bytes, c: Bytes)
    requires Less(a, b) && Less(b, c)
    ensures Less(a, c)
  {
    if a != [] && a[0] == b[0] == c[0] {
      LessIsTransitive(a[1..], b[1..], c[1..]);
    }
  }

  lemma {:induction false} LessIsTotal(a: Bytes, b: Bytes)
    ensures Less(a, b) || a == b || Less(b, a)
  {
    if a != [] && b != [] && a[0] == b[0] {
      LessIsTotal(a[1..], b[1..]);
      assert a == [a[0]] + a[1..] && b == [b[0]] + b[1..];
    }
  }

  lemma LessIsAsymmetric(a: Bytes, b: Bytes)
    requires Less(a, b)
    ensures !Less(b, a) && a != b
  {
    LessIsIrreflexive(a);
    if Less(b, a) { LessIsTransitive(a, b, a); }
  }

  /** Fields of equal width compare first, the rest decides ties. */
  lemma {:induction false} LessOnConcat(x: Bytes, y: Bytes, u: Bytes, v: Bytes)
    requires |x| == |y|
    ensures Less(x + u, y + v) <==> Less(x, y) || (x == y && Less(u, v))
  {
    if x == [] {
      assert x + u == u && y + v == v;
    } else {
      assert (x + u)[1..] == x[1..] + u && (y + v)[1..] == y[1..] + v;
      LessOnConcat(x[1..], y[1..], u, v);
      assert x == [x[0]] + x[1..] && y == [y[0]] + y[1..];
    }
  }

  function Pow256(n: nat): nat {
    if n == 0 then 1 else 256 * Pow256(n - 1)
  }

  function BigEndian(h: nat, width: nat): (b: Bytes)
    ensures |b| == width
  {
    if width == 0 then [] else BigEndian(h / 256, width - 1) + [(h % 256) as byte]
  }

  function BigEndianValue(b: Bytes): nat {
    if b == [] then 0 else BigEndianValue(b[..|b| - 1]) * 256 + b[|b| - 1] as nat
  }

  lemma {:induction false} BigEndianRoundTrip(h: nat, width: nat)
    requires h < Pow256(width)
    ensures BigEndianValue(BigEndian(h, width)) == h
  {
    if width > 0 {
      BigEndianRoundTrip(h / 256, width - 1);
      var b := BigEndian(h, width);
      assert b[..|b| - 1] == BigEndian(h / 256, width - 1);
    }
  }

  lemma {:induction false} BigEndianOrder(a: nat, b: nat, width: nat)
    requires a < Pow256(width) && b < Pow256(width)
    ensures Less(BigEndian(a, width), BigEndian(b, width)) <==> a < b
  {
    if width > 0 {
      var x, y := BigEndian(a / 256, width - 1), BigEndian(b / 256, width - 1);
      var p, q := (a % 256) as byte, (b % 256) as byte;
      BigEndianOrder(a / 256, b / 256, width - 1);
      assert x == y ==> a / 256 == b / 256 by {
        BigEndianRoundTrip(a / 256, width - 1);
        BigEndianRoundTrip(b / 256, width - 1);
      }
      LessOnConcat(x, y, [p], [q]);
      assert Less([p], [q]) <==> p < q;
    }
  }

  const TWO_64: nat := 0x1_0000_0000_0000_0000
  type uint64 = x: nat | x < TWO_64

  lemma Pow256Of8()
    ensures Pow256(8) == TWO_64
  {
    assert Pow256(4) == 0x1_0000_0000;
  }

  /** `common.Uint64ToBytes` and `common.BytesToUint64`. */
  function Uint64ToBytes(h: uint64): (b: Bytes)
    ensures |b| == 8
  {
    BigEndian(h, 8)
  }

  lemma Uint64RoundTrip(h: uint64)
    ensures BigEndianValue(Uint64ToBytes(h)) == h
  {
    Pow256Of8();
    BigEndianRoundTrip(h, 8);
  }

  lemma Uint64BytesOrder(a: uint64, b: uint64)
    ensures Less(Uint64ToBytes(a), Uint64ToBytes(b)) <==> a < b
    ensures Uint64ToBytes(a) == Uint64ToBytes(b) ==> a == b
  {
    Pow256Of8();
    BigEndianOrder(a, b, 8);
    Uint64RoundTrip(a);
    Uint64RoundTrip(b);
  }
}
