/** User ids as JSON numbers: 64-bit integers on their way through a double. */
module Doubles {
  import opened Bytes

  const TWO_53: nat := 0x20_0000_0000_0000

  /** The distance between neighbouring doubles around v: 1 up to 2^53, then doubling with every binade. */
  function Spacing(v: nat): (s: nat)
    ensures s > 0
  {
    if v < TWO_53 then 1 else 2 * Spacing(v / 2)
  }

  /** To the nearest multiple of s, and to the even one of two equally near. */
  function Rounded(v: nat, s: nat): nat
    requires s > 0
  {
    var below, rest := v / s, v % s;
    if 2 * rest < s || (2 * rest == s && below % 2 == 0) then below * s else (below + 1) * s
  }

  /** The conversion of an integer to a double. */
  function ToDouble(v: nat): nat {
    Rounded(v, Spacing(v))
  }

  predicate Representable(v: nat) {
    v % Spacing(v) == 0
  }

  lemma RoundedNear(v: nat, s: nat)
    requires s > 0
    ensures 2 * (Rounded(v, s) - v) <= s && 2 * (v - Rounded(v, s)) <= s
    ensures Rounded(v, s) == v <==> v % s == 0
    ensures v / s > 0 ==> Rounded(v, s) > 0
  {
    var below, rest := v / s, v % s;
    assert v == below * s + rest;
    assert (below + 1) * s == below * s + s;
    if below > 0 {
      assert below * s >= s;
    }
  }

  /** The conversion is to the nearest double, and changes nothing exactly for representable numbers. */
  lemma NearestDouble(v: nat)
    ensures 2 * (ToDouble(v) - v) <= Spacing(v) && 2 * (v - ToDouble(v)) <= Spacing(v)
    ensures ToDouble(v) == v <==> Representable(v)
    ensures v > 0 ==> ToDouble(v) > 0
  {
    hide Rounded;
    RoundedNear(v, Spacing(v));
    var _ := SpacingIs(v);
  }

  function Pow2(k: nat): (r: nat)
    ensures r > 0
  {
    if k == 0 then 1 else 2 * Pow2(k - 1)
  }

  /** The spacing is a power of two, and 53 bits remain above it. */
  lemma {:induction false} SpacingIs(v: nat) returns (k: nat)
    ensures Spacing(v) == Pow2(k)
    ensures v / Spacing(v) < TWO_53 && (v > 0 ==> v / Spacing(v) > 0)
    ensures k > 0 ==> v / Spacing(v) >= TWO_53 / 2
  {
    if v < TWO_53 {
      k := 0;
    } else {
      var k' := SpacingIs(v / 2);
      k := k' + 1;
      HalfFirst(v, Spacing(v / 2));
    }
  }

  lemma HalfFirst(v: nat, s: nat)
    requires s > 0
    ensures v / (2 * s) == v / 2 / s
  {
    var q, r := v / 2 / s, v / 2 % s;
    assert v / 2 == q * s + r;
    assert v == q * (2 * s) + (2 * r + v % 2);
    DivMod(v, 2 * s, q, 2 * r + v % 2);
  }

  lemma TwiceMultiple(h: nat, s: nat)
    requires s > 0 && h % s == 0
    ensures 2 * h % (2 * s) == 0
  {
    assert h == h / s * s;
    assert 2 * h == h / s * (2 * s);
    DivMod(2 * h, 2 * s, h / s, 0);
  }

  /** A 53-bit number with k zeros after it needs no rounding. */
  lemma {:induction false} ScaledFits(m: nat, k: nat)
    requires m <= TWO_53 && (k > 0 ==> m >= TWO_53 / 2)
    ensures Representable(m * Pow2(k))
  {
    if k == 0 {
      assert m * Pow2(k) == m;
      if m == TWO_53 {
        assert Spacing(TWO_53 / 2) == 1;
      }
    } else {
      var half := m * Pow2(k - 1);
      ScaledFits(m, k - 1);
      assert m * Pow2(k) == 2 * half;
      assert half >= m;
      TwiceMultiple(half, Spacing(half));
    }
  }

  /** What one rounding has produced is not rounded again. */
  lemma DoubleAgain(v: nat)
    ensures Representable(ToDouble(v)) && ToDouble(ToDouble(v)) == ToDouble(v)
  {
    hide Representable, Spacing;
    var k := SpacingIs(v);
    var s := Spacing(v);
    ScaledFits(v / s, k);
    ScaledFits(v / s + 1, k);
    NearestDouble(ToDouble(v));
  }

  function Truncated(u: real): int {
    if u >= 0.0 then u.Floor else -(-u).Floor
  }

  /** The cast of a double to 64 bits; outside both 64-bit ranges C++ leaves it open, and this is one choice. */
  function CastU64(u: real): u64 {
    var n := Truncated(u);
    if -0x8000_0000_0000_0000 <= n < U64_SIZE then n % U64_SIZE else 0x8000_0000_0000_0000
  }

  /** A 64-bit id after its trip through a double. */
  function Received(v: u64): u64 {
    CastU64(ToDouble(v) as real)
  }

  lemma ReceivedExact(v: u64)
    ensures Received(v) == v <==> Representable(v)
    ensures Received(v) == 0 <==> v == 0
    ensures ToDouble(v) < U64_SIZE ==> Received(v) == ToDouble(v)
  {
    hide ToDouble, Representable;
    NearestDouble(v);
    NearestDouble(0x8000_0000_0000_0000);
  }

  /** The client's cast of a double to its signed type; out of range, undefined in C++, this is what x86 gives. */
  function CastI64(u: real): (n: int)
    ensures -0x8000_0000_0000_0000 <= n < 0x8000_0000_0000_0000
  {
    var n := Truncated(u);
    if -0x8000_0000_0000_0000 <= n < 0x8000_0000_0000_0000 then n else -0x8000_0000_0000_0000
  }

  /** A signed number's 64 bits. */
  function Bits(n: int): u64
    requires -0x8000_0000_0000_0000 <= n < 0x8000_0000_0000_0000
  {
    if n < 0 then n + U64_SIZE else n
  }

  /** A 64-bit id after its trip through a double to the client. */
  function ClientReceived(v: u64): u64 {
    Bits(CastI64(ToDouble(v) as real))
  }

  /** The ids that make it. */
  predicate Readable(v: u64) {
    Representable(v) && v <= 0x8000_0000_0000_0000
  }

  lemma ClientReceivedExact(v: u64)
    ensures ClientReceived(v) == v <==> Readable(v)
    ensures ClientReceived(v) == 0 <==> v == 0
  {
    hide ToDouble, Representable;
    NearestDouble(v);
    assert TWO_53 / 2 * Pow2(11) == 0x8000_0000_0000_0000;
    ScaledFits(TWO_53 / 2, 11);
    NearestDouble(0x8000_0000_0000_0000);
  }
}
