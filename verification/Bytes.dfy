/** Fixed-width integers and their big-endian byte images, as both ends of the protocol use them. */
module Bytes {

  type byte = x: int | 0 <= x < 0x100
  type u16 = x: int | 0 <= x < 0x1_0000
  type u32 = x: int | 0 <= x < 0x1_0000_0000
  type u64 = x: int | 0 <= x < 0x1_0000_0000_0000_0000

  const U32_SIZE: nat := 0x1_0000_0000
  const U64_SIZE: nat := 0x1_0000_0000_0000_0000

  function Pow256(n: nat): (p: nat)
    ensures p > 0
  {
    if n == 0 then 1 else 256 * Pow256(n - 1)
  }

  lemma Pow256Values()
    ensures Pow256(1) == 0x100 && Pow256(2) == 0x1_0000
    ensures Pow256(4) == U32_SIZE && Pow256(8) == U64_SIZE
  {
    assert Pow256(4) == 256 * (256 * Pow256(2));
    assert Pow256(6) == 256 * (256 * Pow256(4));
    assert Pow256(8) == 256 * (256 * Pow256(6));
  }

  lemma Pow256Monotone(m: nat, n: nat)
    requires m <= n
    ensures Pow256(m) <= Pow256(n)
  {
  }

  /** The low n bytes of v, most significant first. */
  function ToBe(n: nat, v: nat): (s: seq<byte>)
    ensures |s| == n
  {
    if n == 0 then [] else ToBe(n - 1, v / 256) + [v % 256]
  }

  /** The number whose big-endian image is s. */
  function FromBe(s: seq<byte>): (v: nat)
  {
    if s == [] then 0 else FromBe(s[..|s| - 1]) * 256 + s[|s| - 1]
  }

  lemma {:induction false} FromBeBound(s: seq<byte>)
    ensures FromBe(s) < Pow256(|s|)
  {
    if s != [] {
      FromBeBound(s[..|s| - 1]);
    }
  }

  /** Reading back n bytes gives the number written, as long as it fits. */
  lemma {:induction false} FromToBe(n: nat, v: nat)
    requires v < Pow256(n)
    ensures FromBe(ToBe(n, v)) == v
  {
    if n > 0 {
      var s := ToBe(n, v);
      assert s[..|s| - 1] == ToBe(n - 1, v / 256);
      FromToBe(n - 1, v / 256);
    }
  }

  /** Writing back what was read gives the same bytes. */
  lemma {:induction false} ToFromBe(s: seq<byte>)
    ensures ToBe(|s|, FromBe(s)) == s
  {
    if s != [] {
      ToFromBe(s[..|s| - 1]);
      assert s == s[..|s| - 1] + [s[|s| - 1]];
    }
  }

  /** Four bytes that stand for v, most significant first, byte by byte. */
  predicate BigEndian(s: seq<byte>, v: int) {
    |s| == 4 && v == ((s[0] as int * 0x100 + s[1]) * 0x100 + s[2]) * 0x100 + s[3]
  }

  lemma BigEndianRead(s: seq<byte>)
    requires |s| == 4
    ensures BigEndian(s, FromBe(s))
  {
    var s3, s2, s1 := s[..3], s[..2], s[..1];
    assert s3[..2] == s2 && s2[..1] == s1 && s1[..0] == [];
    assert FromBe(s1) == s[0];
    assert FromBe(s2) == s[0] as int * 0x100 + s[1];
    assert FromBe(s3) == (s[0] as int * 0x100 + s[1]) * 0x100 + s[2];
  }

  lemma MulStrict(d: nat, a: nat, b: nat)
    requires a < b
    ensures d * a + d <= d * b
  {
    assert d * b == d * a + d * (b - a);
    assert d * (b - a) == d * (b - a - 1) + d;
  }

  lemma DivUnique(v: nat, d: nat, q: nat, r: nat)
    requires v == d * q + r && r < d
    ensures v / d == q
  {
    var q' := v / d;
    if q' < q {
      MulStrict(d, q', q);
    } else if q < q' {
      MulStrict(d, q, q');
    }
  }

  lemma DivMod(n: nat, d: nat, q: nat, r: nat)
    requires r < d && n == q * d + r
    ensures n / d == q && n % d == r
  {
    DivUnique(n, d, q, r);
  }

  /** Shifting by one byte and then by b bytes' worth is shifting once by the product. */
  lemma DivDiv(v: nat, b: nat)
    requires b > 0
    ensures v / 256 / b == v / (256 * b)
  {
    var q := v / 256;
    var t := q / b;
    assert q == b * t + q % b;
    assert v == 256 * b * t + (256 * (q % b) + v % 256);
    DivUnique(v, 256 * b, t, 256 * (q % b) + v % 256);
  }

  /** Byte i of the image is the number shifted right by the bytes that follow it. */
  lemma {:induction false} ToBeAt(n: nat, v: nat, i: nat)
    requires i < n
    ensures ToBe(n, v)[i] == v / Pow256(n - 1 - i) % 256
  {
    if i < n - 1 {
      ToBeAt(n - 1, v / 256, i);
      DivDiv(v, Pow256(n - 2 - i));
    }
  }

  /** Stores a 64-bit value big-endian into the first eight bytes of out. */
  method WriteBe64(out: array<byte>, value: u64)
    requires out.Length >= 8
    modifies out
    ensures out[..8] == ToBe(8, value)
    ensures out[8..] == old(out[8..])
  {
    var i := 0;
    while i < 8
      invariant 0 <= i <= 8
      invariant forall k :: 0 <= k < i ==> out[k] == ToBe(8, value)[k]
      invariant out[8..] == old(out[8..])
    {
      ToBeAt(8, value, i);
      out[i] := value / Pow256(7 - i) % 256;
      i := i + 1;
    }
  }

  /** Accumulates eight bytes into a 64-bit word, most significant first. */
  method ReadBe64(data: seq<byte>) returns (value: u64)
    requires |data| >= 8
    ensures value == FromBe(data[..8])
  {
    value := 0;
    Pow256Values();
    var i := 0;
    while i < 8
      invariant 0 <= i <= 8
      invariant value == FromBe(data[..i])
    {
      FromBeBound(data[..i]);
      Pow256Monotone(i, 7);
      assert data[..i + 1][..i] == data[..i];
      value := value * 256 % U64_SIZE + data[i];
      i := i + 1;
    }
  }

  /** read_be64 undoes write_be64 for every 64-bit value. */
  method ReadWritten(value: u64) returns (back: u64)
    ensures back == value
  {
    var wire := new byte[8](_ => 0);
    WriteBe64(wire, value);
    back := ReadBe64(wire[..]);
    Pow256Values();
    FromToBe(8, value);
    assert wire[..] == wire[..8];
    assert wire[..][..8] == wire[..8];
  }
}
