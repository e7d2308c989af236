/** Machine words as their bits, least significant first, and the shift register of CRC-32 on them. */
module Bits {
  type byte = n: int | 0 <= n < 256

  type Word = w: seq<bool> | |w| == 32 witness seq(32, i => false)

  function Filled(b: bool): Word { seq(32, i => b) }

  const ZERO: Word := Filled(false)
  const ONES: Word := Filled(true)

  function Xor(a: Word, b: Word): Word { seq(32, i requires 0 <= i < 32 => a[i] != b[i]) }

  function Not(a: Word): Word { seq(32, i requires 0 <= i < 32 => !a[i]) }

  /** The unsigned right shift. */
  function ShiftRight(a: Word, k: nat): Word
    requires k <= 32
  {
    a[k..] + seq(k, i => false)
  }

  /** The number's `width` lowest bits. */
  function NatBits(n: nat, width: nat): (bits: seq<bool>)
    ensures |bits| == width
  {
    if width == 0 then [] else [n % 2 == 1] + NatBits(n / 2, width - 1)
  }

  function BitsNat(bits: seq<bool>): nat {
    if bits == [] then 0 else (if bits[0] then 1 else 0) + 2 * BitsNat(bits[1..])
  }

  function Pow2(k: nat): nat { if k == 0 then 1 else 2 * Pow2(k - 1) }

  lemma {:induction false} PowersMultiply(j: nat, k: nat)
    ensures Pow2(j + k) == Pow2(j) * Pow2(k)
  {
    if j > 0 {
      PowersMultiply(j - 1, k);
      assert Pow2(j + k) == 2 * Pow2(j - 1 + k);
      assert Pow2(j) * Pow2(k) == 2 * (Pow2(j - 1) * Pow2(k));
    }
  }

  lemma {:induction false} BitsNatBounded(bits: seq<bool>)
    ensures BitsNat(bits) < Pow2(|bits|)
  {
    if bits != [] { BitsNatBounded(bits[1..]); }
  }

  lemma {:induction false} BitsRoundTrip(bits: seq<bool>)
    ensures NatBits(BitsNat(bits), |bits|) == bits
  {
    if bits != [] {
      BitsRoundTrip(bits[1..]);
      assert bits == [bits[0]] + bits[1..];
    }
  }

  lemma {:induction false} NatRoundTrip(n: nat, width: nat)
    requires n < Pow2(width)
    ensures BitsNat(NatBits(n, width)) == n
  {
    if width > 0 {
      NatRoundTrip(n / 2, width - 1);
      assert NatBits(n, width)[1..] == NatBits(n / 2, width - 1);
    }
  }

  lemma {:induction false} HighBitsZero(n: nat, width: nat, k: nat, i: nat)
    requires n < Pow2(k) && k <= i < width
    ensures !NatBits(n, width)[i]
    decreases width
  {
    if i > 0 {
      assert NatBits(n, width)[i] == NatBits(n / 2, width - 1)[i - 1];
      if k == 0 { HighBitsZero(n / 2, width - 1, 0, i - 1); } else { HighBitsZero(n / 2, width - 1, k - 1, i - 1); }
    }
  }

  // ---- The register ----

  /** 0xEDB88320, byte by byte. */
  const POLY: Word :=
    [false, false, false, false, false, true, false, false]
    + ([true, true, false, false, false, false, false, true]
    + ([false, false, false, true, true, true, false, true]
    + [true, false, true, true, false, true, true, true]))

  lemma PolyIsTheConstant()
    ensures BitsNat(POLY) == 0xEDB8_8320
  {
    Byte20();
    Byte83();
    ByteB8();
    ByteED();
    OneMoreByte(NatBits(0xB8, 8), NatBits(0xED, 8));
    OneMoreByte(NatBits(0x83, 8), NatBits(0xB8, 8) + NatBits(0xED, 8));
    OneMoreByte(NatBits(0x20, 8), NatBits(0x83, 8) + (NatBits(0xB8, 8) + NatBits(0xED, 8)));
  }

  lemma OneMoreByte(low: seq<bool>, high: seq<bool>)
    requires |low| == 8
    ensures BitsNat(low + high) == BitsNat(low) + 0x100 * BitsNat(high)
  {
    EightIsAByte();
    BitsNatAppend(low, high);
  }

  lemma {:induction false} BitsNatAppend(low: seq<bool>, high: seq<bool>)
    ensures BitsNat(low + high) == BitsNat(low) + Pow2(|low|) * BitsNat(high)
  {
    if low == [] {
      assert low + high == high;
    } else {
      assert (low + high)[1..] == low[1..] + high;
      BitsNatAppend(low[1..], high);
      DoubledTimes(Pow2(|low| - 1), BitsNat(high));
    }
  }

  lemma DoubledTimes(p: nat, h: nat)
    ensures 2 * p * h == 2 * (p * h)
  {
  }

  lemma Byte20()
    ensures NatBits(0x20, 8) == [false, false, false, false, false, true, false, false]
    ensures BitsNat(NatBits(0x20, 8)) == 0x20
  {
    EightIsAByte();
    NatRoundTrip(0x20, 8);
  }

  lemma Byte83()
    ensures NatBits(0x83, 8) == [true, true, false, false, false, false, false, true]
    ensures BitsNat(NatBits(0x83, 8)) == 0x83
  {
    EightIsAByte();
    NatRoundTrip(0x83, 8);
  }

  lemma ByteB8()
    ensures NatBits(0xB8, 8) == [false, false, false, true, true, true, false, true]
    ensures BitsNat(NatBits(0xB8, 8)) == 0xB8
  {
    EightIsAByte();
    NatRoundTrip(0xB8, 8);
  }

  lemma ByteED()
    ensures NatBits(0xED, 8) == [true, false, true, true, false, true, true, true]
    ensures BitsNat(NatBits(0xED, 8)) == 0xED
  {
    EightIsAByte();
    NatRoundTrip(0xED, 8);
  }

  lemma EightIsAByte()
    ensures Pow2(8) == 0x100
  {
  }

  lemma {:induction false} LowPart(low: nat, rest: nat, k: nat, width: nat)
    requires low < Pow2(k)
    ensures NatBits(low + Pow2(k) * rest, k + width) == NatBits(low, k) + NatBits(rest, width)
  {
    var n := low + Pow2(k) * rest;
    if k == 0 {
      assert n == rest;
    } else {
      var t := Pow2(k - 1) * rest;
      assert Pow2(k) * rest == 2 * t;
      assert n % 2 == low % 2 && n / 2 == low / 2 + t;
      LowPart(low / 2, rest, k - 1, width);
      BitFirst(n, k + width);
      BitFirst(low, k);
    }
  }

  lemma BitFirst(n: nat, width: nat)
    requires width > 0
    ensures NatBits(n, width) == [n % 2 == 1] + NatBits(n / 2, width - 1)
  {
  }

  /** One bit of reflected division. */
  function Shift(c: Word): Word {
    if c[0] then Xor(POLY, ShiftRight(c, 1)) else ShiftRight(c, 1)
  }

  function Shifts(c: Word, k: nat): Word {
    if k == 0 then c else Shift(Shifts(c, k - 1))
  }

  /** A word with one bit that may be set. */
  function BitAt(k: nat, b: bool): Word { seq(32, i => i == k && b) }

  /** The register after one more bit of the message. */
  function PushBit(c: Word, b: bool): Word { Shift(Xor(c, BitAt(0, b))) }

  function PushBits(c: Word, bits: seq<bool>): Word {
    if bits == [] then c else PushBit(PushBits(c, bits[..|bits| - 1]), bits[|bits| - 1])
  }

  /** The bits of a byte sequence in the order the register sees them. */
  function MessageBits(bytes: seq<byte>): seq<bool> {
    if bytes == [] then [] else MessageBits(bytes[..|bytes| - 1]) + NatBits(bytes[|bytes| - 1], 8)
  }

  lemma {:induction false} PushBitsAppend(c: Word, a: seq<bool>, b: seq<bool>)
    ensures PushBits(c, a + b) == PushBits(PushBits(c, a), b)
    decreases |b|
  {
    if b == [] {
      assert a + b == a;
    } else {
      assert (a + b)[..|a + b| - 1] == a + b[..|b| - 1];
      PushBitsAppend(c, a, b[..|b| - 1]);
    }
  }

  // ---- Linearity and invertibility ----

  lemma TopBit()
    ensures POLY[31]
  {
  }

  lemma XorCancel(a: Word, b: Word, c: Word)
    requires Xor(a, b) == Xor(a, c)
    ensures b == c
  {
    forall i | 0 <= i < 32 ensures b[i] == c[i] {
      assert Xor(a, b)[i] == Xor(a, c)[i];
    }
  }

  lemma ShiftIsLinear(a: Word, b: Word)
    ensures Shift(Xor(a, b)) == Xor(Shift(a), Shift(b))
  {
  }

  lemma {:induction false} ShiftsAreLinear(a: Word, b: Word, k: nat)
    ensures Shifts(Xor(a, b), k) == Xor(Shifts(a, k), Shifts(b, k))
  {
    if k > 0 {
      ShiftsAreLinear(a, b, k - 1);
      ShiftIsLinear(Shifts(a, k - 1), Shifts(b, k - 1));
    }
  }

  /** The polynomial's top bit shows whether the low bit was set, so a step can be undone. */
  lemma ShiftIsInjective(a: Word, b: Word)
    requires Shift(a) == Shift(b)
    ensures a == b
  {
    ShiftedBit(a, 31);
    ShiftedBit(b, 31);
    TopBit();
    forall i | 0 < i < 32 ensures a[i] == b[i] {
      ShiftedBit(a, i - 1);
      ShiftedBit(b, i - 1);
    }
  }

  lemma ShiftedBit(a: Word, i: nat)
    requires i < 32
    ensures Shift(a)[i] == ((i < 31 && a[i + 1]) != (a[0] && POLY[i]))
  {
  }

  lemma {:induction false} ShiftsAreInjective(a: Word, b: Word, k: nat)
    requires Shifts(a, k) == Shifts(b, k)
    ensures a == b
  {
    if k > 0 {
      ShiftIsInjective(Shifts(a, k - 1), Shifts(b, k - 1));
      ShiftsAreInjective(a, b, k - 1);
    }
  }

  lemma {:induction false} PushBitsInjective(a: Word, b: Word, bits: seq<bool>)
    requires PushBits(a, bits) == PushBits(b, bits)
    ensures a == b
    decreases |bits|
  {
    if bits != [] {
      var z := BitAt(0, bits[|bits| - 1]);
      var a1, b1 := PushBits(a, bits[..|bits| - 1]), PushBits(b, bits[..|bits| - 1]);
      ShiftIsInjective(Xor(a1, z), Xor(b1, z));
      assert Xor(z, a1) == Xor(a1, z) && Xor(z, b1) == Xor(b1, z);
      XorCancel(z, a1, b1);
      PushBitsInjective(a, b, bits[..|bits| - 1]);
    }
  }

  /** Bits that fit in a word, as a word. */
  function Padded(bits: seq<bool>): Word
    requires |bits| <= 32
  {
    bits + seq(32 - |bits|, i => false)
  }

  lemma {:induction false} LoneBitFalls(k: nat, j: nat, b: bool)
    requires j <= k < 32
    ensures Shifts(BitAt(k, b), j) == BitAt(k - j, b)
  {
    if j > 0 {
      LoneBitFalls(k, j - 1, b);
      assert ShiftRight(BitAt(k - j + 1, b), 1) == BitAt(k - j, b);
    }
  }

  /** Up to a word of message can be taken in at once, and shifted after. */
  lemma {:induction false} BurstAtOnce(c: Word, bits: seq<bool>)
    requires |bits| <= 32
    ensures PushBits(c, bits) == Shifts(Xor(c, Padded(bits)), |bits|)
  {
    if bits == [] {
      assert Xor(c, Padded([])) == c;
    } else {
      var n := |bits| - 1;
      var init, b := bits[..n], bits[n];
      BurstAtOnce(c, init);
      assert Xor(c, Padded(bits)) == Xor(Xor(c, Padded(init)), BitAt(n, b));
      ShiftsAreLinear(Xor(c, Padded(init)), BitAt(n, b), n);
      LoneBitFalls(n, n, b);
    }
  }

  /** Two messages of one length whose differences lie within 32 consecutive bits never leave the same register. */
  lemma BurstsAreDetected(c: Word, before: seq<bool>, x: seq<bool>, y: seq<bool>, after: seq<bool>)
    requires |x| == |y| <= 32
    requires PushBits(c, before + x + after) == PushBits(c, before + y + after)
    ensures x == y
  {
    var c1 := PushBits(c, before);
    PushBitsAppend(c, before + x, after);
    PushBitsAppend(c, before + y, after);
    PushBitsAppend(c, before, x);
    PushBitsAppend(c, before, y);
    PushBitsInjective(PushBits(c1, x), PushBits(c1, y), after);
    BurstAtOnce(c1, x);
    BurstAtOnce(c1, y);
    ShiftsAreInjective(Xor(c1, Padded(x)), Xor(c1, Padded(y)), |x|);
    XorCancel(c1, Padded(x), Padded(y));
    assert x == Padded(x)[..|x|] && y == Padded(y)[..|y|];
  }
}
