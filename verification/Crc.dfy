/** The CRC-32 of the image fixtures: a table of 256 words stands in for the bit-serial register. */
module Crc {
  import opened Bits

  /** RFC 2083 section 3.4: start from ones, take in the message bit by bit, and complement. */
  function Crc32(bytes: seq<byte>): Word { Not(PushBits(ONES, MessageBits(bytes))) }

  ghost predicate IsTable(table: seq<Word>) {
    |table| == 256 && forall n :: 0 <= n < 256 ==> table[n] == Shifts(NatBits(n, 32), 8)
  }

  method MakeTable() returns (table: array<Word>)
    ensures fresh(table) && IsTable(table[..])
  {
    table := new Word[256](i => ZERO);
    var n := 0;
    while n < 256
      invariant 0 <= n <= 256 && fresh(table) && table.Length == 256
      invariant forall m :: 0 <= m < n ==> table[m] == Shifts(NatBits(m, 32), 8)
    {
      var c: Word := NatBits(n, 32);
      var k := 0;
      while k < 8
        invariant 0 <= k <= 8 && c == Shifts(NatBits(n, 32), k)
      {
        c := if c[0] then Xor(POLY, ShiftRight(c, 1)) else ShiftRight(c, 1);
        k := k + 1;
      }
      table[n] := c;
      n := n + 1;
    }
  }

  /** A byte at a time through the table is a bit at a time through the register. */
  method ComputeCrc32(table: array<Word>, buf: seq<byte>) returns (crc: Word)
    requires IsTable(table[..])
    ensures crc == Crc32(buf)
  {
    var c := ONES;
    var i := 0;
    while i < |buf|
      invariant 0 <= i <= |buf|
      invariant c == PushBits(ONES, MessageBits(buf[..i]))
    {
      var index := BitsNat(Xor(c, NatBits(buf[i], 32))[..8]);
      ByteThroughTable(c, buf[i]);
      assert table[..][index] == Shifts(NatBits(index, 32), 8);
      PushBitsAppend(ONES, MessageBits(buf[..i]), NatBits(buf[i], 8));
      assert buf[..i + 1][..i] == buf[..i];
      c := Xor(table[index], ShiftRight(c, 8));
      i := i + 1;
    }
    assert buf[..i] == buf;
    crc := Not(c);
  }

  // ---- Eight bit steps as one table step ----

  lemma ByteThroughTable(c: Word, b: byte)
    ensures BitsNat(Xor(c, NatBits(b, 32))[..8]) < 256
    ensures var index := BitsNat(Xor(c, NatBits(b, 32))[..8]);
            PushBits(c, NatBits(b, 8)) == Xor(Shifts(NatBits(index, 32), 8), ShiftRight(c, 8))
  {
    var x := Xor(c, NatBits(b, 32));
    var low := x[..8];
    BitsNatBounded(low);
    EightIsAByte();
    BurstAtOnce(c, NatBits(b, 8));
    WidenedByte(b);
    LowBitsApart(x, 8);
    BitsRoundTrip(low);
    WidenedByte(BitsNat(low));
    assert ShiftRight(x, 8) == ShiftRight(c, 8) by {
      forall i | 0 <= i < 32 ensures ShiftRight(x, 8)[i] == ShiftRight(c, 8)[i] {
        if i < 24 { HighBitsZero(b, 32, 8, i + 8); }
      }
    }
  }

  lemma WidenedByte(b: byte)
    ensures NatBits(b, 32) == Padded(NatBits(b, 8))
  {
    EightIsAByte();
    LowPart(b, 0, 8, 24);
    forall i | 0 <= i < 24 ensures !NatBits(0, 24)[i] {
      HighBitsZero(0, 24, 0, i);
    }
    assert NatBits(0, 24) == seq(24, i => false);
  }

  /** `k` steps feed back only the register's `k` low bits; the others just move down. */
  lemma LowBitsApart(c: Word, k: nat)
    requires k <= 32
    ensures Shifts(c, k) == Xor(Shifts(Padded(c[..k]), k), ShiftRight(c, k))
  {
    var high: Word := seq(k, i => false) + c[k..];
    assert c == Xor(Padded(c[..k]), high);
    ShiftsAreLinear(Padded(c[..k]), high, k);
    NothingFedBack(high, k, k);
    assert ShiftRight(high, k) == ShiftRight(c, k);
  }

  lemma {:induction false} NothingFedBack(c: Word, k: nat, j: nat)
    requires j <= k <= 32 && forall i :: 0 <= i < k ==> !c[i]
    ensures Shifts(c, j) == ShiftRight(c, j)
  {
    if j == 0 {
      assert ShiftRight(c, 0) == c;
    } else {
      NothingFedBack(c, k, j - 1);
      assert !ShiftRight(c, j - 1)[0];
      assert ShiftRight(ShiftRight(c, j - 1), 1) == ShiftRight(c, j);
    }
  }

  // ---- What the checksum tells apart ----

  lemma {:induction false} MessageBitsAppend(a: seq<byte>, b: seq<byte>)
    ensures MessageBits(a + b) == MessageBits(a) + MessageBits(b)
    decreases |b|
  {
    if b == [] {
      assert a + b == a;
    } else {
      assert (a + b)[..|a + b| - 1] == a + b[..|b| - 1];
      MessageBitsAppend(a, b[..|b| - 1]);
    }
  }

  lemma {:induction false} MessageBitsInjective(a: seq<byte>, b: seq<byte>)
    requires |a| == |b| && MessageBits(a) == MessageBits(b)
    ensures a == b && |MessageBits(a)| == 8 * |a|
    decreases |a|
  {
    if a != [] {
      var n := |a| - 1;
      MessageBitsLength(a[..n]);
      MessageBitsLength(b[..n]);
      assert MessageBits(a[..n]) == MessageBits(a)[..8 * n] == MessageBits(b[..n]);
      assert NatBits(a[n], 8) == MessageBits(a)[8 * n..] == NatBits(b[n], 8);
      MessageBitsInjective(a[..n], b[..n]);
      EightIsAByte();
      NatRoundTrip(a[n], 8);
      NatRoundTrip(b[n], 8);
      assert a == a[..n] + [a[n]] && b == b[..n] + [b[n]];
    }
  }

  lemma {:induction false} MessageBitsLength(a: seq<byte>)
    ensures |MessageBits(a)| == 8 * |a|
    decreases |a|
  {
    if a != [] { MessageBitsLength(a[..|a| - 1]); }
  }

  /** Messages of one length that differ, and only within four consecutive bytes, never share a checksum. */
  lemma BurstChangesCrc(before: seq<byte>, x: seq<byte>, y: seq<byte>, after: seq<byte>)
    requires |x| == |y| <= 4 && x != y
    ensures Crc32(before + x + after) != Crc32(before + y + after)
  {
    if Crc32(before + x + after) == Crc32(before + y + after) {
      MessageBitsAppend(before + x, after);
      MessageBitsAppend(before, x);
      MessageBitsAppend(before + y, after);
      MessageBitsAppend(before, y);
      NotIsInjective(PushBits(ONES, MessageBits(before + x + after)), PushBits(ONES, MessageBits(before + y + after)));
      MessageBitsLength(x);
      MessageBitsLength(y);
      BurstsAreDetected(ONES, MessageBits(before), MessageBits(x), MessageBits(y), MessageBits(after));
      MessageBitsInjective(x, y);
    }
  }

  /** In particular, one changed byte always shows. */
  lemma OneByteChangesCrc(a: seq<byte>, b: seq<byte>, i: nat)
    requires |a| == |b| && i < |a| && a[i] != b[i]
    requires forall j :: 0 <= j < |a| && j != i ==> a[j] == b[j]
    ensures Crc32(a) != Crc32(b)
  {
    BurstChangesCrc(a[..i], [a[i]], [b[i]], a[i + 1..]);
    assert a == a[..i] + [a[i]] + a[i + 1..];
    assert b == a[..i] + [b[i]] + a[i + 1..];
  }

  lemma NotIsInjective(a: Word, b: Word)
    requires Not(a) == Not(b)
    ensures a == b
  {
    forall i | 0 <= i < 32 ensures a[i] == b[i] {
      assert Not(a)[i] == Not(b)[i];
    }
  }
}
