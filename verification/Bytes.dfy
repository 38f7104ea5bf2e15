/** Little-endian fixed-width numbers, the in-memory layout of the C++ record fields. */
module Bytes {
  import opened Messages

  const LIMIT32: nat := 0x1_0000_0000
  const LIMIT64: nat := 0x1_0000_0000_0000_0000

  datatype Option<T> = None | Some(value: T)

  function Pow256(w: nat): (r: nat)
    ensures r >= 1
  {
    if w == 0 then 1 else 256 * Pow256(w - 1)
  }

  /** The `w` low bytes of `v`, least significant first. */
  function ToBytes(v: nat, w: nat): (s: seq<byte>)
    ensures |s| == w
  {
    if w == 0 then [] else [(v % 256) as byte] + ToBytes(v / 256, w - 1)
  }

  function FromBytes(s: seq<byte>): nat {
    if s == [] then 0 else s[0] as nat + 256 * FromBytes(s[1..])
  }

  lemma {:induction false} FromToBytes(v: nat, w: nat)
    ensures FromBytes(ToBytes(v, w)) == v % Pow256(w)
    decreases w
  {
    if w == 0 {
      assert v % 1 == 0;
    } else {
      FromToBytes(v / 256, w - 1);
      var s := ToBytes(v, w);
      assert s[1..] == ToBytes(v / 256, w - 1);
      SplitModulo(v, Pow256(w - 1));
    }
  }

  lemma SplitModulo(v: nat, p: nat)
    requires p >= 1
    ensures v % 256 + 256 * (v / 256 % p) == v % (256 * p)
  {
    var q, r := v / 256 / p, v / 256 % p;
    assert v / 256 == q * p + r;
    var low := v % 256 + 256 * r;
    assert v == (256 * p) * q + low by {
      assert v == 256 * (v / 256) + v % 256;
      assert 256 * (q * p + r) == (256 * p) * q + 256 * r;
    }
    assert 0 <= low < 256 * p by { assert 256 * r <= 256 * (p - 1); }
    ModuloUnique(v, 256 * p, q, low);
  }

  lemma ModuloUnique(v: nat, m: nat, q: nat, r: nat)
    requires m >= 1 && v == m * q + r && r < m
    ensures v % m == r
  {
    var x := v / m - q;
    assert m * x == r - v % m;
    assert x >= 1 ==> m * x >= m;
    assert x <= -1 ==> m * x + m <= 0;
  }

  /** A number that fits its field is read back. */
  lemma FieldRoundTrip(v: nat, w: nat)
    requires v < Pow256(w)
    ensures FromBytes(ToBytes(v, w)) == v
  {
    FromToBytes(v, w);
    ModuloUnique(v, Pow256(w), 0, v);
  }

  lemma {:induction false} FromBytesBound(s: seq<byte>)
    ensures FromBytes(s) < Pow256(|s|)
  {
    if s != [] { FromBytesBound(s[1..]); }
  }

  /** A field that was read is written back as it was. */
  lemma {:induction false} ToFromBytes(s: seq<byte>)
    ensures ToBytes(FromBytes(s), |s|) == s
  {
    if s != [] {
      ToFromBytes(s[1..]);
      LowByte(s[0] as nat, FromBytes(s[1..]));
      assert [s[0]] + s[1..] == s;
    }
  }

  lemma LowByte(low: nat, rest: nat)
    requires low < 256
    ensures (low + 256 * rest) % 256 == low && (low + 256 * rest) / 256 == rest
  {
  }

  lemma FieldSizes()
    ensures Pow256(2) == 0x1_0000 && Pow256(4) == 0x1_0000_0000 && Pow256(8) == 0x1_0000_0000_0000_0000
  {
    assert Pow256(2) == 65536;
    assert Pow256(4) == 4294967296;
    assert Pow256(6) == 281474976710656;
  }
}
