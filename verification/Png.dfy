/** The PNG fixtures: chunk framing, the file built from one colour, and a reader of the format that takes it back. */
module Png {
  import opened Wrappers
  import opened Bits
  import opened Crc

  const LIMIT: nat := 0x1_0000_0000

  // ---- Four-byte integers, network byte order ----

  function Two(n: nat): (s: seq<byte>)
    requires n < 0x1_0000
    ensures |s| == 2 && FromTwo(s) == n
  {
    [n / 0x100, n % 0x100]
  }

  function FromTwo(s: seq<byte>): (n: nat)
    requires |s| == 2
    ensures n < 0x1_0000
  {
    0x100 * (s[0] as int) + s[1] as int
  }

  lemma FromTwoInjective(s: seq<byte>, t: seq<byte>)
    requires |s| == |t| == 2 && FromTwo(s) == FromTwo(t)
    ensures s == t
  {
  }

  function BigEndian(n: nat): (s: seq<byte>)
    requires n < LIMIT
    ensures |s| == 4 && FromBigEndian(s) == n
  {
    var s := Two(n / 0x1_0000) + Two(n % 0x1_0000);
    assert s[..2] == Two(n / 0x1_0000) && s[2..] == Two(n % 0x1_0000);
    s
  }

  function FromBigEndian(s: seq<byte>): (n: nat)
    requires |s| == 4
    ensures n < LIMIT
  {
    0x1_0000 * FromTwo(s[..2]) + FromTwo(s[2..])
  }

  lemma FromBigEndianInjective(s: seq<byte>, t: seq<byte>)
    requires |s| == |t| == 4 && FromBigEndian(s) == FromBigEndian(t)
    ensures s == t
  {
    assert FromTwo(s[2..]) == FromTwo(t[2..]) && FromTwo(s[..2]) == FromTwo(t[..2]);
    FromTwoInjective(s[..2], t[..2]);
    FromTwoInjective(s[2..], t[2..]);
    assert s == s[..2] + s[2..] && t == t[..2] + t[2..];
  }

  /** The checksum as it stands in a file. */
  function CrcBytes(bytes: seq<byte>): (s: seq<byte>)
    ensures |s| == 4
  {
    CrcBounded(bytes);
    BigEndian(BitsNat(Crc32(bytes)))
  }

  lemma CrcBounded(bytes: seq<byte>)
    ensures BitsNat(Crc32(bytes)) < LIMIT
  {
    BitsNatBounded(Crc32(bytes));
    WordsBelowLimit();
  }

  lemma WordsBelowLimit()
    ensures Pow2(32) == LIMIT
  {
    EightIsAByte();
    PowersMultiply(8, 8);
    PowersMultiply(16, 16);
  }

  lemma CrcBytesInjective(a: seq<byte>, b: seq<byte>)
    requires CrcBytes(a) == CrcBytes(b)
    ensures Crc32(a) == Crc32(b)
  {
    CrcBounded(a);
    CrcBounded(b);
    BitsRoundTrip(Crc32(a));
    BitsRoundTrip(Crc32(b));
  }

  // ---- Chunks ----

  datatype Chunk = Chunk(kind: seq<byte>, data: seq<byte>)

  predicate WellFormed(c: Chunk) { |c.kind| == 4 && |c.data| < LIMIT }

  /** Section 3.2 of RFC 2083. A length that needs more than four bytes cannot be written. */
  function Frame(c: Chunk): (framed: Option<seq<byte>>)
    ensures framed.Some? <==> |c.data| < LIMIT
  {
    if |c.data| >= LIMIT then None
    else Some(BigEndian(|c.data|) + (c.kind + c.data) + CrcBytes(c.kind + c.data))
  }

  method MakeChunk(table: array<Word>, c: Chunk) returns (framed: Option<seq<byte>>)
    requires IsTable(table[..])
    ensures framed == Frame(c)
  {
    var typeAndData := c.kind + c.data;
    if |c.data| >= LIMIT { return None; }
    var length := BigEndian(|c.data|);
    var crc := ComputeCrc32(table, typeAndData);
    CrcBounded(typeAndData);
    framed := Some(length + typeAndData + BigEndian(BitsNat(crc)));
  }

  /** A reader of one chunk, written from the format alone. */
  function ReadChunk(s: seq<byte>): Option<(Chunk, seq<byte>)> {
    if |s| < 12 then None else
      var n := FromBigEndian(s[..4]);
      if |s| < 12 + n then None
      else if s[8 + n..12 + n] != CrcBytes(s[4..8 + n]) then None
      else Some((Chunk(s[4..8], s[8..8 + n]), s[12 + n..]))
  }

  lemma ChunkRoundTrip(c: Chunk, rest: seq<byte>)
    requires WellFormed(c)
    ensures ReadChunk(Frame(c).value + rest) == Some((c, rest))
  {
    var n, body := |c.data|, c.kind + c.data;
    Pieces(BigEndian(n), body, CrcBytes(body), rest);
    var s := Frame(c).value + rest;
    assert s[4..8] == body[..4] == c.kind && s[8..8 + n] == body[4..] == c.data;
  }

  lemma Pieces(a: seq<byte>, b: seq<byte>, c: seq<byte>, rest: seq<byte>)
    requires |a| == 4 && |c| == 4 && |b| >= 4
    ensures var s, n := a + b + c + rest, |b| - 4;
            && s[..4] == a && s[4..8 + n] == b && s[8 + n..12 + n] == c && s[12 + n..] == rest
            && s[4..8] == b[..4] && s[8..8 + n] == b[4..]
  {
  }

  lemma ReadChunkIsFraming(s: seq<byte>)
    requires ReadChunk(s).Some?
    ensures var (c, rest) := ReadChunk(s).value;
            WellFormed(c) && s == Frame(c).value + rest && |rest| < |s|
  {
    var n := FromBigEndian(s[..4]);
    var c := Chunk(s[4..8], s[8..8 + n]);
    assert c.kind + c.data == s[4..8 + n];
    FromBigEndianInjective(BigEndian(n), s[..4]);
    assert s == s[..4] + s[4..8 + n] + s[8 + n..12 + n] + s[12 + n..];
  }

  function FrameAll(cs: seq<Chunk>): seq<byte>
    requires forall i :: 0 <= i < |cs| ==> WellFormed(cs[i])
  {
    if cs == [] then [] else assert WellFormed(cs[0]); Frame(cs[0]).value + FrameAll(cs[1..])
  }

  function ReadChunks(s: seq<byte>): Option<seq<Chunk>>
    decreases |s|
  {
    if s == [] then Some([])
    else if ReadChunk(s).None? then None
    else
      var (c, rest) := ReadChunk(s).value;
      var more := ReadChunks(rest);
      if more.None? then None else Some([c] + more.value)
  }

  /** A byte string reads as a list of chunks exactly when it is their framing: reading and framing are inverses. */
  lemma {:induction false} ReadingInvertsFraming(s: seq<byte>, cs: seq<Chunk>)
    requires forall i :: 0 <= i < |cs| ==> WellFormed(cs[i])
    ensures s == FrameAll(cs) <==> ReadChunks(s) == Some(cs)
    decreases |cs|
  {
    if cs == [] {
    } else {
      var s1 := FrameAll(cs[1..]);
      ChunkRoundTrip(cs[0], s1);
      ReadingInvertsFraming(s1, cs[1..]);
      assert cs == [cs[0]] + cs[1..];
      if ReadChunks(s) == Some(cs) {
        ReadChunkIsFraming(s);
        var rest := ReadChunk(s).value.1;
        assert ReadChunks(rest).value == cs[1..];
        ReadingInvertsFraming(rest, cs[1..]);
      }
    }
  }

  // ---- Damage ----

  /** `g` is `f` with some bytes changed, all of them in `[from, from + width)`. */
  ghost predicate DamagedWithin(f: seq<byte>, g: seq<byte>, from: nat, width: nat) {
    && |f| == |g| && from + width <= |f| && f != g
    && forall i :: 0 <= i < |f| && !(from <= i < from + width) ==> f[i] == g[i]
  }

  /** Damage to at most four bytes in a row of the name and data, or to any of the checksum, is always noticed. */
  lemma DamageIsSeen(c: Chunk, g: seq<byte>, from: nat, width: nat, rest: seq<byte>)
    requires WellFormed(c) && DamagedWithin(Frame(c).value, g, from, width) && width <= 4
    requires 4 <= from && (from + width <= 8 + |c.data| || from >= 8 + |c.data|)
    ensures ReadChunk(g + rest).None?
  {
    var f, n := Frame(c).value, |c.data|;
    var was, wasSum := c.kind + c.data, CrcBytes(c.kind + c.data);
    assert f[..4] == BigEndian(n) && f[4..8 + n] == was && f[8 + n..] == wasSum;
    assert g[..4] == f[..4];
    ReadPieces(g, n, rest);
    SamePieces(f, g, 8 + n);
    if from >= 8 + n {
      assert g[4..8 + n] == f[4..8 + n];
    } else {
      assert g[8 + n..] == wasSum;
      forall i | 0 <= i < 4 + n && !(from - 4 <= i < from - 4 + width) ensures was[i] == g[4..8 + n][i] {
        assert f[4..8 + n][i] == f[4 + i];
      }
      BodyDamage(was, g[4..8 + n], from - 4, width);
    }
  }

  lemma BodyDamage(was: seq<byte>, body: seq<byte>, from: nat, width: nat)
    requires DamagedWithin(was, body, from, width) && width <= 4
    ensures CrcBytes(was) != CrcBytes(body)
  {
    var to := from + width;
    assert was == was[..from] + was[from..to] + was[to..];
    assert body == was[..from] + body[from..to] + was[to..];
    BurstChangesCrc(was[..from], was[from..to], body[from..to], was[to..]);
    if CrcBytes(was) == CrcBytes(body) { CrcBytesInjective(was, body); }
  }

  lemma ReadPieces(g: seq<byte>, n: nat, rest: seq<byte>)
    requires |g| == 12 + n && n < LIMIT && g[..4] == BigEndian(n)
    ensures ReadChunk(g + rest).Some? <==> g[8 + n..] == CrcBytes(g[4..8 + n])
  {
    var s := g + rest;
    assert s[..4] == g[..4] && s[4..8 + n] == g[4..8 + n] && s[8 + n..12 + n] == g[8 + n..];
  }

  lemma SamePieces(f: seq<byte>, g: seq<byte>, n: nat)
    requires 4 <= n && |f| == |g| == n + 4
    ensures f == g <==> f[..4] == g[..4] && f[4..n] == g[4..n] && f[n..] == g[n..]
  {
  }
}
