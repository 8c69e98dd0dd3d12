/** The server's Base64 coder (section 4 of RFC 4648), with its wrapping 32-bit accumulator. */
module Base64 {
  import opened Bytes

  type sextet = v: int | 0 <= v < 64

  const PAD: byte := 61

  /** Entry i of the Base64 alphabet: A-Z, a-z, 0-9, '+', '/'. */
  function Letter(i: sextet): byte {
    if i < 26 then 65 + i
    else if i < 52 then 97 + (i - 26)
    else if i < 62 then 48 + (i - 52)
    else if i == 62 then 43
    else 47
  }

  const UPPER: string := "ABCDEFGHIJKLMNOPQRSTUVWXYZ"
  const LOWER: string := "abcdefghijklmnopqrstuvwxyz"
  const DIGITS: string := "0123456789"

  /** The table both loops of the source index. */
  lemma LetterTable(i: sextet)
    ensures i < 26 ==> Letter(i) == UPPER[i] as int
    ensures 26 <= i < 52 ==> Letter(i) == LOWER[i - 26] as int
    ensures 52 <= i < 62 ==> Letter(i) == DIGITS[i - 52] as int
    ensures Letter(62) == '+' as int && Letter(63) == '/' as int && PAD == '=' as int
  {
  }

  /** The value of an alphabet character, -1 for every other byte. */
  function Sextet(ch: byte): (v: int)
    ensures -1 <= v < 64
    ensures v >= 0 ==> Letter(v) == ch
  {
    if 65 <= ch <= 90 then ch - 65
    else if 97 <= ch <= 122 then ch - 97 + 26
    else if 48 <= ch <= 57 then ch - 48 + 52
    else if ch == 43 then 62
    else if ch == 47 then 63
    else -1
  }

  lemma SextetLetter(i: nat)
    requires i < 64
    ensures Sextet(Letter(i)) == i && Letter(i) != PAD
  {
  }

  // The 24 bits of three bytes regrouped into four digits, as the RFC describes them

  function Digit0(b0: byte): sextet { b0 / 4 }

  function Digit1(b0: byte, b1: byte): sextet { b0 % 4 * 16 + b1 / 16 }

  function Digit2(b1: byte, b2: byte): sextet { b1 % 16 * 4 + b2 / 64 }

  function Digit3(b2: byte): sextet { b2 % 64 }

  function Group(b0: byte, b1: byte, b2: byte): seq<byte> {
    [Letter(Digit0(b0)), Letter(Digit1(b0, b1)), Letter(Digit2(b1, b2)), Letter(Digit3(b2))]
  }

  function EncodeGroups(x: seq<byte>): seq<byte>
    requires |x| % 3 == 0
  {
    if x == [] then []
    else
      var n := |x| - 3;
      EncodeGroups(x[..n]) + Group(x[n], x[n + 1], x[n + 2])
  }

  lemma EncodeGroupsStep(x: seq<byte>, i: nat)
    requires i + 3 <= |x| && i % 3 == 0
    ensures EncodeGroups(x[..i + 3]) == EncodeGroups(x[..i]) + Group(x[i], x[i + 1], x[i + 2])
  {
    assert x[..i + 3][..i] == x[..i];
  }

  function EncodeTail(x: seq<byte>): seq<byte>
    requires |x| < 3
  {
    if |x| == 0 then []
    else if |x| == 1 then [Letter(Digit0(x[0])), Letter(Digit1(x[0], 0)), PAD, PAD]
    else [Letter(Digit0(x[0])), Letter(Digit1(x[0], x[1])), Letter(Digit2(x[1], 0)), PAD]
  }

  function Encode(x: seq<byte>): seq<byte>
  {
    var n := |x| - |x| % 3;
    EncodeGroups(x[..n]) + EncodeTail(x[n..])
  }

  /** Three bytes as one 24-bit word. */
  function Triple(b0: int, b1: int, b2: int): int {
    b0 * 0x1_0000 + b1 * 0x100 + b2
  }

  /** Masking the shifted word gives the digits. */
  lemma TripleDigits(b0: byte, b1: byte, b2: byte)
    ensures var t := Triple(b0, b1, b2);
            && t / 0x4_0000 % 64 == Digit0(b0) && t / 0x1000 % 64 == Digit1(b0, b1)
            && t / 64 % 64 == Digit2(b1, b2) && t % 64 == Digit3(b2)
  {
    var t := Triple(b0, b1, b2);
    var d1, d2 := b0 % 4 * 16 + b1 / 16, b1 % 16 * 4 + b2 / 64;
    DivMod(t, 0x4_0000, b0 / 4, b0 % 4 * 0x1_0000 + b1 * 0x100 + b2);
    DivMod(t, 0x1000, b0 / 4 * 64 + d1, b1 % 16 * 0x100 + b2);
    DivMod(b0 / 4 * 64 + d1, 64, b0 / 4, d1);
    DivMod(t, 64, (b0 / 4 * 64 + d1) * 64 + d2, b2 % 64);
    DivMod((b0 / 4 * 64 + d1) * 64 + d2, 64, b0 / 4 * 64 + d1, d2);
  }

  /** The four letters the encoder reads off one 24-bit word. */
  method WordLetters(b0: byte, b1: byte, b2: byte) returns (text: seq<byte>)
    ensures text == Group(b0, b1, b2)
  {
    var triple := Triple(b0, b1, b2);
    TripleDigits(b0, b1, b2);
    text := [Letter(triple / 0x4_0000 % 64), Letter(triple / 0x1000 % 64),
             Letter(triple / 64 % 64), Letter(triple % 64)];
  }

  method Base64Encode(bytes: seq<byte>) returns (out: seq<byte>)
    ensures out == Encode(bytes)
  {
    out := [];
    var i := 0;
    ghost var k := 0;
    while i + 2 < |bytes|
      invariant i == 3 * k <= |bytes| && i % 3 == 0
      invariant out == EncodeGroups(bytes[..i])
    {
      var text := WordLetters(bytes[i], bytes[i + 1], bytes[i + 2]);
      EncodeGroupsStep(bytes, i);
      out := out + text;
      i := i + 3;
      k := k + 1;
    }
    DivMod(|bytes|, 3, k, |bytes| - i);
    var tail := EncodeRest(bytes, i);
    out := out + tail;
  }

  /** The one or two bytes left over, padded. */
  method EncodeRest(bytes: seq<byte>, i: nat) returns (out: seq<byte>)
    requires i <= |bytes| < i + 3
    ensures out == EncodeTail(bytes[i..])
  {
    out := [];
    if i + 1 == |bytes| {
      var text := WordLetters(bytes[i], 0, 0);
      out := text[..2] + [PAD, PAD];
    } else if i + 2 == |bytes| {
      var text := WordLetters(bytes[i], bytes[i + 1], 0);
      out := text[..3] + [PAD];
    }
  }

  /** The decoder's loop state; done records that '=' was met. */
  datatype State = State(accumulator: u32, bits: nat, out: seq<byte>, done: bool)

  function Pow2(bits: nat): (p: nat)
    requires bits < 8
    ensures p > 0
  {
    [1, 2, 4, 8, 16, 32, 64, 128][bits]
  }

  /** One turn of the decoder's loop. The shift drops the bits that leave the 32-bit word. */
  function Step(st: State, ch: byte): (st': State)
    requires st.bits in {0, 2, 4, 6}
    ensures st'.bits in {0, 2, 4, 6}
  {
    if st.done || ch == PAD then st.(done := true)
    else if Sextet(ch) < 0 then st
    else Shift(st, Sextet(ch))
  }

  /** Six more bits enter the accumulator; a whole byte leaves it once eight are there. */
  function Shift(st: State, v: nat): State
    requires v < 64 && st.bits in {0, 2, 4, 6}
  {
    var acc := st.accumulator * 64 % U32_SIZE + v;
    if st.bits + 6 >= 8 then State(acc, st.bits - 2, st.out + [acc / Pow2(st.bits - 2) % 256], false)
    else State(acc, 6, st.out, false)
  }

  function Fold(text: seq<byte>): (st: State)
    ensures st.bits in {0, 2, 4, 6}
  {
    if text == [] then State(0, 0, [], false)
    else Step(Fold(text[..|text| - 1]), text[|text| - 1])
  }

  function Decode(text: seq<byte>): seq<byte> {
    Fold(text).out
  }

  /** Builds the 256-entry reverse table the decoder indexes. */
  method BuildTable() returns (table: array<int>)
    ensures fresh(table) && table.Length == 256
    ensures forall b: byte :: table[b] == Sextet(b)
  {
    table := new int[256](_ => -1);
    for i := 0 to 64
      invariant forall b: byte :: table[b] == if Sextet(b) < i then Sextet(b) else -1
    {
      SextetLetter(i);
      table[Letter(i)] := i;
    }
  }

  method Base64Decode(text: seq<byte>) returns (out: seq<byte>)
    ensures out == Decode(text)
  {
    var table := BuildTable();
    out := [];
    var accumulator: u32 := 0;
    var bits := 0;
    var i := 0;
    while i < |text|
      invariant 0 <= i <= |text|
      invariant Fold(text[..i]) == State(accumulator, bits, out, false)
    {
      assert text[..i + 1][..i] == text[..i];
      if text[i] == PAD {
        DoneStays(text, i + 1);
        return;
      }
      var value := table[text[i]];
      if value >= 0 {
        accumulator := accumulator * 64 % U32_SIZE + value;
        bits := bits + 6;
        if bits >= 8 {
          bits := bits - 8;
          out := out + [accumulator / Pow2(bits) % 256];
        }
      }
      i := i + 1;
    }
    assert text[..i] == text;
  }

  lemma {:induction false} DoneStays(text: seq<byte>, i: nat)
    requires i <= |text| && Fold(text[..i]).done
    ensures Decode(text) == Decode(text[..i])
    ensures Fold(text).done
    decreases |text|
  {
    if i < |text| {
      assert text[..|text| - 1][..i] == text[..i];
      DoneStays(text[..|text| - 1], i);
    } else {
      assert text[..i] == text;
    }
  }

  // Round trip

  lemma {:induction false} FoldAppend(a: seq<byte>, ch: byte)
    ensures Fold(a + [ch]) == Step(Fold(a), ch)
  {
    assert (a + [ch])[..|a|] == a;
  }

  lemma FoldLetter(a: seq<byte>, d: nat)
    requires d < 64 && !Fold(a).done
    ensures Fold(a + [Letter(d)]) == Shift(Fold(a), d)
  {
    SextetLetter(d);
    FoldAppend(a, Letter(d));
  }

  /** What leaves the accumulator depends on its low bits alone, and the shift keeps those exact. */
  lemma ShiftAccumulator(acc: u32, v: sextet)
    ensures var acc' := acc * 64 % U32_SIZE + v;
            && acc' % 64 == v
            && acc' / 16 % 256 == acc % 64 * 4 + v / 16
            && acc' / 4 % 256 == acc % 64 % 16 * 16 + v / 4
            && acc' % 256 == acc % 64 % 4 * 64 + v
  {
    var k, r := acc / 64, acc % 64;
    var high := k % 0x10_0000;
    var acc' := acc * 64 % U32_SIZE + v;
    DivMod(acc * 64, U32_SIZE, k / 0x10_0000, high * 0x1000 + r * 64);
    DivMod(acc', 64, high * 64 + r, v);
    DivMod(acc', 16, (high * 64 + r) * 4 + v / 16, v % 16);
    DivMod((high * 64 + r) * 4 + v / 16, 256, high, r * 4 + v / 16);
    DivMod(acc', 4, (high * 64 + r) * 16 + v / 4, v % 4);
    DivMod((high * 64 + r) * 16 + v / 4, 256, high * 4 + r / 16, r % 16 * 16 + v / 4);
    DivMod(acc', 256, high * 16 + r / 4, r % 4 * 64 + v);
  }

  /** Two letters after a byte boundary complete one byte. */
  lemma FoldTwo(a: seq<byte>, d0: sextet, d1: sextet)
    requires Fold(a).bits == 0 && !Fold(a).done
    ensures var st := Fold(a + [Letter(d0), Letter(d1)]);
            !st.done && st.bits == 4 && st.accumulator % 64 == d1 && st.out == Fold(a).out + [d0 * 4 + d1 / 16]
  {
    hide Fold, Letter;
    FoldLetter(a, d0);
    ShiftAccumulator(Fold(a).accumulator, d0);
    var st0 := Shift(Fold(a), d0);
    FoldLetter(a + [Letter(d0)], d1);
    ShiftAccumulator(st0.accumulator, d1);
    assert a + [Letter(d0), Letter(d1)] == a + [Letter(d0)] + [Letter(d1)];
  }

  /** A third letter completes the second byte. */
  lemma FoldThree(a: seq<byte>, d0: sextet, d1: sextet, d2: sextet)
    requires Fold(a).bits == 0 && !Fold(a).done
    ensures var st := Fold(a + [Letter(d0), Letter(d1), Letter(d2)]);
            !st.done && st.bits == 2 && st.accumulator % 64 == d2
            && st.out == Fold(a).out + [d0 * 4 + d1 / 16, d1 % 16 * 16 + d2 / 4]
  {
    FoldTwo(a, d0, d1);
    var b := a + [Letter(d0), Letter(d1)];
    FoldLetter(b, d2);
    ShiftAccumulator(Fold(b).accumulator, d2);
    assert a + [Letter(d0), Letter(d1), Letter(d2)] == b + [Letter(d2)];
  }

  /** A fourth completes the third, back on a byte boundary. */
  lemma FoldFour(a: seq<byte>, d0: sextet, d1: sextet, d2: sextet, d3: sextet)
    requires Fold(a).bits == 0 && !Fold(a).done
    ensures var st := Fold(a + [Letter(d0), Letter(d1), Letter(d2), Letter(d3)]);
            !st.done && st.bits == 0
            && st.out == Fold(a).out + [d0 * 4 + d1 / 16, d1 % 16 * 16 + d2 / 4, d2 % 4 * 64 + d3]
  {
    FoldThree(a, d0, d1, d2);
    var b := a + [Letter(d0), Letter(d1), Letter(d2)];
    FoldLetter(b, d3);
    ShiftAccumulator(Fold(b).accumulator, d3);
    assert a + [Letter(d0), Letter(d1), Letter(d2), Letter(d3)] == b + [Letter(d3)];
  }

  lemma Recombine(b: byte, c: byte)
    ensures Digit0(b) * 4 + Digit1(b, c) / 16 == b && Digit1(b, c) % 16 == c / 16
    ensures b / 16 * 16 + Digit2(b, c) / 4 == b && Digit2(b, c) % 4 == c / 64
    ensures c / 64 * 64 + Digit3(c) == c
  {
    DivMod(b % 4 * 16 + c / 16, 16, b % 4, c / 16);
    DivMod(b % 16 * 4 + c / 64, 4, b % 16, c / 64);
  }

  /** A whole group decodes to its own three bytes. */
  lemma FoldGroup(a: seq<byte>, b0: byte, b1: byte, b2: byte)
    requires Fold(a).bits == 0 && !Fold(a).done
    ensures var st := Fold(a + Group(b0, b1, b2));
            !st.done && st.bits == 0 && st.out == Fold(a).out + [b0, b1, b2]
  {
    hide Fold, Letter, Digit0, Digit1, Digit2, Digit3;
    Recombine(b0, b1);
    Recombine(b1, b2);
    FoldFour(a, Digit0(b0), Digit1(b0, b1), Digit2(b1, b2), Digit3(b2));
  }

  lemma LastGroup(x: seq<byte>)
    requires |x| % 3 == 0 && x != []
    ensures var n := |x| - 3; EncodeGroups(x) == EncodeGroups(x[..n]) + Group(x[n], x[n + 1], x[n + 2])
  {
  }

  /** The text decodes to x and ends on a byte boundary. */
  predicate FoldsTo(text: seq<byte>, x: seq<byte>) {
    !Fold(text).done && Fold(text).bits == 0 && Fold(text).out == x
  }

  lemma FoldsToMore(text: seq<byte>, x: seq<byte>, b0: byte, b1: byte, b2: byte)
    requires FoldsTo(text, x)
    ensures FoldsTo(text + Group(b0, b1, b2), x + [b0, b1, b2])
  {
    hide Fold, Group;
    FoldGroup(text, b0, b1, b2);
  }

  lemma {:induction false} FoldGroups(x: seq<byte>)
    requires |x| % 3 == 0
    ensures FoldsTo(EncodeGroups(x), x)
  {
    if x != [] {
      hide FoldsTo, Group, EncodeGroups;
      var n := |x| - 3;
      FoldGroups(x[..n]);
      FoldsToMore(EncodeGroups(x[..n]), x[..n], x[n], x[n + 1], x[n + 2]);
      LastGroup(x);
      assert x == x[..n] + [x[n], x[n + 1], x[n + 2]];
    }
  }

  /** Decoding undoes encoding on every byte string. */
  lemma RoundTrip(x: seq<byte>)
    ensures Decode(Encode(x)) == x
  {
    var n := |x| - |x| % 3;
    var head, tail := EncodeGroups(x[..n]), x[n..];
    FoldGroups(x[..n]);
    assert x == x[..n] + tail;
    FoldTail(head, tail);
  }

  lemma FoldTail(a: seq<byte>, tail: seq<byte>)
    requires Fold(a).bits == 0 && !Fold(a).done && |tail| < 3
    ensures Decode(a + EncodeTail(tail)) == Decode(a) + tail
  {
    if |tail| == 0 {
      assert a + EncodeTail(tail) == a;
    } else if |tail| == 1 {
      assert tail == [tail[0]];
      FoldTailOne(a, tail[0]);
    } else {
      assert tail == [tail[0], tail[1]];
      FoldTailTwo(a, tail[0], tail[1]);
    }
  }

  lemma FoldTailOne(a: seq<byte>, b0: byte)
    requires Fold(a).bits == 0 && !Fold(a).done
    ensures Decode(a + EncodeTail([b0])) == Decode(a) + [b0]
  {
    Recombine(b0, 0);
    FoldTwo(a, Digit0(b0), Digit1(b0, 0));
    var stem := a + [Letter(Digit0(b0)), Letter(Digit1(b0, 0))];
    FoldPadding(stem);
    assert a + EncodeTail([b0]) == stem + [PAD, PAD];
  }

  lemma FoldTailTwo(a: seq<byte>, b0: byte, b1: byte)
    requires Fold(a).bits == 0 && !Fold(a).done
    ensures Decode(a + EncodeTail([b0, b1])) == Decode(a) + [b0, b1]
  {
    hide Fold, Letter, Digit0, Digit1, Digit2;
    Recombine(b0, b1);
    Recombine(b1, 0);
    FoldThree(a, Digit0(b0), Digit1(b0, b1), Digit2(b1, 0));
    var stem := a + [Letter(Digit0(b0)), Letter(Digit1(b0, b1)), Letter(Digit2(b1, 0))];
    FoldPadding(stem);
    assert a + EncodeTail([b0, b1]) == stem + [PAD];
  }

  lemma FoldPadding(stem: seq<byte>)
    ensures Decode(stem + [PAD]) == Decode(stem) && Decode(stem + [PAD, PAD]) == Decode(stem)
  {
    FoldAppend(stem, PAD);
    FoldAppend(stem + [PAD], PAD);
    assert stem + [PAD, PAD] == stem + [PAD] + [PAD];
  }

  /** A byte outside the alphabet other than '=' changes nothing, wherever it is inserted. */
  lemma {:induction false} NoiseIgnored(a: seq<byte>, ch: byte, b: seq<byte>)
    requires Sextet(ch) < 0 && ch != PAD
    ensures Decode(a + [ch] + b) == Decode(a + b)
    ensures Fold(a + [ch] + b) == Fold(a + b)
    decreases |b|
  {
    if b == [] {
      FoldAppend(a, ch);
      assert a + [ch] + b == a + [ch] && a + b == a;
    } else {
      var n := |b| - 1;
      NoiseIgnored(a, ch, b[..n]);
      FoldAppend(a + [ch] + b[..n], b[n]);
      FoldAppend(a + b[..n], b[n]);
      assert a + [ch] + b == a + [ch] + b[..n] + [b[n]];
      assert a + b == a + b[..n] + [b[n]];
    }
  }

  // What any text means, independently of the accumulator

  /** The alphabet values before the first '='. */
  function Sextets(text: seq<byte>): seq<sextet>
  {
    if text == [] then []
    else
      var n := |text| - 1;
      var s := Sextets(text[..n]);
      if PAD in text || Sextet(text[n]) < 0 then s else s + [Sextet(text[n])]
  }

  /** The first '=' is what ends the decoding, and nothing else does. */
  lemma {:induction false} DoneMeaning(text: seq<byte>)
    ensures Fold(text).done <==> PAD in text
  {
    if text != [] {
      var n := |text| - 1;
      DoneMeaning(text[..n]);
      assert text == text[..n] + [text[n]];
    }
  }

  /** The unbounded number the sextets spell in base 64. */
  function Number(s: seq<sextet>): nat
  {
    if s == [] then 0 else Number(s[..|s| - 1]) * 64 + s[|s| - 1]
  }

  /** The wrapping accumulator never matters: the output is the exact base-64 number cut to whole bytes. */
  lemma {:induction false} DecodeMeaning(text: seq<byte>)
    ensures var s := Sextets(text);
            && Fold(text).bits == 6 * |s| % 8
            && Decode(text) == ToBe(6 * |s| / 8, Number(s) / Pow2(6 * |s| % 8))
            && Fold(text).accumulator == Number(s) % U32_SIZE
  {
    hide ToBe, Sextet;
    if text != [] {
      var n := |text| - 1;
      DecodeMeaning(text[..n]);
      DoneMeaning(text);
      var st, s := Fold(text[..n]), Sextets(text[..n]);
      if !Fold(text).done && Sextet(text[n]) >= 0 {
        var v: sextet := Sextet(text[n]);
        var s' := s + [v];
        assert s'[..|s|] == s;
        SextetBits(|s|);
        DecodeStepMeaning(st, Number(s), v, 6 * |s| / 8);
      }
    }
  }

  /** How many whole bytes k sextets make, and how many bits remain. */
  lemma SextetBits(k: nat)
    ensures var b := 6 * k % 8;
            && b in {0, 2, 4, 6}
            && 6 * (k + 1) % 8 == (if b == 0 then 6 else b - 2)
            && 6 * (k + 1) / 8 == 6 * k / 8 + (if b == 0 then 0 else 1)
  {
    var q, r := k / 4, k % 4;
    if r == 0 {
      DivMod(6 * k, 8, 3 * q, 0);
      DivMod(6 * k + 6, 8, 3 * q, 6);
    } else if r == 1 {
      DivMod(6 * k, 8, 3 * q, 6);
      DivMod(6 * k + 6, 8, 3 * q + 1, 4);
    } else if r == 2 {
      DivMod(6 * k, 8, 3 * q + 1, 4);
      DivMod(6 * k + 6, 8, 3 * q + 2, 2);
    } else {
      DivMod(6 * k, 8, 3 * q + 2, 2);
      DivMod(6 * k + 6, 8, 3 * q + 3, 0);
    }
  }

  lemma DecodeStepMeaning(st: State, number: nat, v: sextet, bytes: nat)
    requires st.bits in {0, 2, 4, 6} && st.accumulator == number % U32_SIZE
    requires st.out == ToBe(bytes, number / Pow2(st.bits))
    ensures var st', number' := Shift(st, v), number * 64 + v;
            && st'.accumulator == number' % U32_SIZE
            && st'.bits == (if st.bits == 0 then 6 else st.bits - 2)
            && st'.out == ToBe(if st.bits == 0 then bytes else bytes + 1, number' / Pow2(st'.bits))
  {
    hide ToBe;
    var st', number' := Shift(st, v), number * 64 + v;
    AccumulatorExact(st.accumulator, number, v);
    if st.bits == 0 {
      assert number' / 64 == number;
    } else {
      ByteExact(number, v, st'.bits);
      OneMoreByte(bytes, number' / Pow2(st'.bits));
    }
  }

  lemma OneMoreByte(k: nat, m: nat)
    ensures ToBe(k + 1, m) == ToBe(k, m / 256) + [m % 256]
  {
  }

  lemma AccumulatorExact(acc: u32, number: nat, v: sextet)
    requires acc == number % U32_SIZE
    ensures acc * 64 % U32_SIZE + v == (number * 64 + v) % U32_SIZE
  {
  }

  lemma ByteExact(number: nat, v: sextet, bits: nat)
    requires bits in {0, 2, 4}
    ensures var number' := number * 64 + v;
            && number' % U32_SIZE / Pow2(bits) % 256 == number' / Pow2(bits) % 256
            && number' / Pow2(bits) / 256 == number / Pow2(bits + 2)
  {
    LowBits(number * 64 + v);
  }

  lemma LowBits(n: nat)
    ensures n % U32_SIZE % 256 == n % 256
    ensures n % U32_SIZE / 4 % 256 == n / 4 % 256
    ensures n % U32_SIZE / 16 % 256 == n / 16 % 256
  {
    var k, r := n / U32_SIZE, n % U32_SIZE;
    DivMod(n, 256, k * 0x100_0000 + r / 256, r % 256);
    DivMod(n, 4, k * 0x4000_0000 + r / 4, r % 4);
    DivMod(n / 4, 256, k * 0x40_0000 + r / 4 / 256, r / 4 % 256);
    DivMod(n, 16, k * 0x1000_0000 + r / 16, r % 16);
    DivMod(n / 16, 256, k * 0x10_0000 + r / 16 / 256, r / 16 % 256);
  }
}
