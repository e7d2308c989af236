/** The fixtures' images: nested loops over one buffer, and the picture a reader gets out of the file. */
module PngImage {
  import opened Wrappers
  import opened Bits
  import opened Crc
  import opened Png

  datatype Pixel = Pixel(r: byte, g: byte, b: byte, a: byte)
  datatype Image = Image(width: nat, height: nat, rows: seq<seq<Pixel>>)

  const SIGNATURE: seq<byte> := [0x89, 0x50, 0x4e, 0x47, 0x0d, 0x0a, 0x1a, 0x0a]
  const IHDR: seq<byte> := [0x49, 0x48, 0x44, 0x52]
  const IDAT: seq<byte> := [0x49, 0x44, 0x41, 0x54]
  const IEND: seq<byte> := [0x49, 0x45, 0x4e, 0x44]

  // ---- Scanlines ----

  function PixelBytes(p: Pixel): seq<byte> { [p.r, p.g, p.b, p.a] }

  function RowBytes(row: seq<Pixel>): (s: seq<byte>)
    ensures |s| == 4 * |row|
  {
    if row == [] then [] else RowBytes(row[..|row| - 1]) + PixelBytes(row[|row| - 1])
  }

  /** Scanlines with filter type 0, top to bottom. */
  function Scanlines(rows: seq<seq<Pixel>>): seq<byte> {
    if rows == [] then [] else Scanlines(rows[..|rows| - 1]) + ([0] + RowBytes(rows[|rows| - 1]))
  }

  function Repeat<T>(x: T, n: nat): (s: seq<T>)
    ensures |s| == n && forall i :: 0 <= i < n ==> s[i] == x
  {
    seq(n, i => x)
  }

  /** What a buffer holds at `i` after a write of `v`. */
  function ToByte(v: int): byte { v % 256 }

  function Colour(r: int, g: int, b: int): Pixel { Pixel(ToByte(r), ToByte(g), ToByte(b), 255) }

  function Solid(p: Pixel, size: nat): Image { Image(size, size, Repeat(Repeat(p, size), size)) }

  lemma {:induction false} ScanlinesLength(row: seq<Pixel>, n: nat, stride: nat)
    requires stride == 1 + 4 * |row|
    ensures |Scanlines(Repeat(row, n))| == n * stride
  {
    if n > 0 {
      ScanlinesLength(row, n - 1, stride);
      OneMoreLine(row, n - 1);
      assert n * stride == (n - 1) * stride + stride;
    }
  }

  /** The pixel loops, on a zeroed buffer. */
  method FillRaw(r: int, g: int, b: int, size: nat) returns (raw: array<byte>)
    ensures fresh(raw) && raw[..] == Scanlines(Solid(Colour(r, g, b), size).rows)
  {
    ghost var line := Repeat(Colour(r, g, b), size);
    var stride := 1 + size * 4;
    ghost var total := size * stride;
    raw := new byte[size * stride](i => 0);
    var y := 0;
    while y < size
      invariant 0 <= y <= size && fresh(raw) && raw.Length == total
      invariant Holds(raw[..], Scanlines(Repeat(line, y)))
    {
      Offsets(line, y, size, stride, total);
      FillRow(raw, y * stride, r, g, b, size, Scanlines(Repeat(line, y)));
      OneMoreLine(line, y);
      y := y + 1;
    }
    Offsets(line, size, size, stride, total);
  }

  method FillRow(raw: array<byte>, row: nat, r: int, g: int, b: int, size: nat, ghost done: seq<byte>)
    requires Holds(raw[..], done) && |done| == row && row + (1 + size * 4) <= raw.Length
    modifies raw
    ensures Holds(raw[..], done + ([0] + RowBytes(Repeat(Colour(r, g, b), size))))
  {
    ghost var p := Colour(r, g, b);
    ghost var start := done + [0];
    Grow(raw[..], done, [0]);
    assert RowBytes(Repeat(p, 0)) == [];
    assert start + [] == start;
    var x := 0;
    while x < size
      invariant 0 <= x <= size
      invariant Holds(raw[..], start + RowBytes(Repeat(p, x)))
    {
      var px := row + 1 + x * 4;
      PaintPixel(raw, px, r, g, b, start + RowBytes(Repeat(p, x)));
      OneMore(p, x);
      Regroup(start, RowBytes(Repeat(p, x)), PixelBytes(p));
      x := x + 1;
    }
    Regroup(done, [0], RowBytes(Repeat(p, size)));
  }

  method PaintPixel(raw: array<byte>, px: nat, r: int, g: int, b: int, ghost done: seq<byte>)
    requires Holds(raw[..], done) && |done| == px && px + 4 <= raw.Length
    modifies raw
    ensures Holds(raw[..], done + PixelBytes(Colour(r, g, b)))
  {
    raw[px] := ToByte(r);
    raw[px + 1] := ToByte(g);
    raw[px + 2] := ToByte(b);
    raw[px + 3] := 255;
    assert raw[..] == old(raw[..])[..px] + PixelBytes(Colour(r, g, b)) + old(raw[..])[px + 4..];
    Paint(old(raw[..]), done, Colour(r, g, b));
  }

  lemma Regroup(a: seq<byte>, b: seq<byte>, c: seq<byte>)
    ensures a + b + c == a + (b + c)
  {
  }

  /** The buffer starts with `done` and is still zero after it. */
  ghost predicate Holds(raw: seq<byte>, done: seq<byte>) {
    |done| <= |raw| && raw == done + Repeat(0, |raw| - |done|)
  }

  lemma Offsets(line: seq<Pixel>, y: nat, size: nat, stride: nat, total: nat)
    requires y <= size == |line| && stride == 1 + 4 * size && total == size * stride
    ensures |Scanlines(Repeat(line, y))| == y * stride
    ensures y < size ==> y * stride + stride <= total
    ensures y == size ==> y * stride == total
  {
    ScanlinesLength(line, y, stride);
    if y < size { RoomForOneMore(y, size, stride); }
  }

  lemma RoomForOneMore(y: nat, size: nat, stride: nat)
    requires y < size
    ensures y * stride + stride <= size * stride
  {
    var k := size - y - 1;
    assert size * stride == y * stride + stride + k * stride;
    assert k * stride >= 0;
  }

  lemma Grow(raw: seq<byte>, done: seq<byte>, more: seq<byte>)
    requires Holds(raw, done) && |done| + |more| <= |raw| && more == Repeat(0, |more|)
    ensures Holds(raw, done + more)
  {
  }

  lemma Paint(raw: seq<byte>, done: seq<byte>, p: Pixel)
    requires Holds(raw, done) && |done| + 4 <= |raw|
    ensures Holds(raw[..|done|] + PixelBytes(p) + raw[|done| + 4..], done + PixelBytes(p))
  {
  }

  lemma OneMore(p: Pixel, n: nat)
    ensures RowBytes(Repeat(p, n + 1)) == RowBytes(Repeat(p, n)) + PixelBytes(p)
  {
    assert Repeat(p, n + 1)[..n] == Repeat(p, n);
  }

  lemma OneMoreLine(line: seq<Pixel>, n: nat)
    ensures Scanlines(Repeat(line, n + 1)) == Scanlines(Repeat(line, n)) + ([0] + RowBytes(line))
  {
    assert Repeat(line, n + 1)[..n] == Repeat(line, n);
  }

  // ---- The file ----

  function Header(size: nat): (data: seq<byte>)
    requires size < LIMIT
  {
    BigEndian(size) + BigEndian(size) + [8, 6, 0, 0, 0]
  }

  /** The file's chunks. */
  function Chunks(deflated: seq<byte>, size: nat): seq<Chunk>
    requires size < LIMIT
  {
    [Chunk(IHDR, Header(size)), Chunk(IDAT, deflated), Chunk(IEND, [])]
  }

  /** `solidPng`; None where a length does not fit the four bytes it is written to. */
  method SolidPng(table: array<Word>, deflate: seq<byte> -> seq<byte>, r: int, g: int, b: int, size: nat)
    returns (png: Option<seq<byte>>)
    requires IsTable(table[..])
    ensures var raw := Scanlines(Solid(Colour(r, g, b), size).rows);
            && (png.Some? <==> size < LIMIT && |deflate(raw)| < LIMIT)
            && (png.Some? ==> png.value == SIGNATURE + FrameAll(Chunks(deflate(raw), size)))
  {
    if size >= LIMIT { return None; }
    var header := BigEndian(size) + BigEndian(size) + [8, 6, 0, 0, 0];
    var raw := FillRaw(r, g, b, size);
    var c1 := MakeChunk(table, Chunk(IHDR, header));
    var c2 := MakeChunk(table, Chunk(IDAT, deflate(raw[..])));
    var c3 := MakeChunk(table, Chunk(IEND, []));
    if c2.None? { return None; }
    png := Some(SIGNATURE + c1.value + c2.value + c3.value);
    FrameThree(Chunks(deflate(raw[..]), size));
    Regroup(SIGNATURE, c1.value, c2.value);
    Regroup(SIGNATURE, c1.value + c2.value, c3.value);
  }

  lemma FrameThree(cs: seq<Chunk>)
    requires |cs| == 3 && WellFormed(cs[0]) && WellFormed(cs[1]) && WellFormed(cs[2])
    ensures FrameAll(cs) == Frame(cs[0]).value + Frame(cs[1]).value + Frame(cs[2]).value
  {
    var rest := cs[1..];
    assert rest[1..] == [cs[2]];
    assert FrameAll([cs[2]]) == Frame(cs[2]).value + [];
    assert FrameAll(rest) == Frame(cs[1]).value + FrameAll([cs[2]]);
    Regroup(Frame(cs[0]).value, Frame(cs[1]).value, Frame(cs[2]).value);
  }

  // ---- A reader ----

  function ReadRow(s: seq<byte>): seq<Pixel>
    requires |s| % 4 == 0
  {
    if s == [] then []
    else ReadRow(s[..|s| - 4]) + [Pixel(s[|s| - 4], s[|s| - 3], s[|s| - 2], s[|s| - 1])]
  }

  /** `height` scanlines of `width` pixels, each with filter type 0 (the only one this reader knows). */
  function ReadScanlines(s: seq<byte>, width: nat, height: nat): Option<seq<seq<Pixel>>>
    decreases height
  {
    if height == 0 then if s == [] then Some([]) else None
    else
      var stride := 1 + 4 * width;
      if |s| < stride || s[|s| - stride] != 0 then None else
        var more := ReadScanlines(s[..|s| - stride], width, height - 1);
        if more.None? then None else Some(more.value + [ReadRow(s[|s| - stride + 1..])])
  }

  /** Sections 3.1, 4.1 and 6 of RFC 2083 for 8-bit RGBA in one IDAT chunk. */
  function Decode(inflate: seq<byte> -> Option<seq<byte>>, file: seq<byte>): Option<Image> {
    if |file| < 8 || file[..8] != SIGNATURE then None else
      var chunks := ReadChunks(file[8..]);
      if chunks.None? then None else
        var cs := chunks.value;
        if |cs| != 3 || cs[0].kind != IHDR || cs[1].kind != IDAT || cs[2] != Chunk(IEND, []) then None
        else if |cs[0].data| != 13 || cs[0].data[8..] != [8, 6, 0, 0, 0] then None
        else
          var width := FromBigEndian(cs[0].data[..4]);
          var height := FromBigEndian(cs[0].data[4..8]);
          var raw := inflate(cs[1].data);
          if raw.None? then None else
            var rows := ReadScanlines(raw.value, width, height);
            if rows.None? then None else Some(Image(width, height, rows.value))
  }

  lemma {:induction false} ReadRowBack(row: seq<Pixel>)
    ensures ReadRow(RowBytes(row)) == row
    decreases |row|
  {
    if row != [] {
      var n := |row| - 1;
      var s := RowBytes(row);
      ReadRowBack(row[..n]);
      assert s[..|s| - 4] == RowBytes(row[..n]);
      assert row == row[..n] + [row[n]];
    }
  }

  lemma {:induction false} ReadScanlinesBack(rows: seq<seq<Pixel>>, width: nat)
    requires forall i :: 0 <= i < |rows| ==> |rows[i]| == width
    ensures ReadScanlines(Scanlines(rows), width, |rows|) == Some(rows)
    decreases |rows|
  {
    if rows != [] {
      var n := |rows| - 1;
      ReadScanlinesBack(rows[..n], width);
      ReadLastLine(Scanlines(rows[..n]), rows[n], width, n);
      assert rows == rows[..n] + [rows[n]];
    }
  }

  lemma ReadLastLine(init: seq<byte>, row: seq<Pixel>, width: nat, height: nat)
    requires |row| == width && ReadScanlines(init, width, height).Some?
    ensures ReadScanlines(init + ([0] + RowBytes(row)), width, height + 1)
         == Some(ReadScanlines(init, width, height).value + [row])
  {
    ReadRowBack(row);
    ReadLast(init + ([0] + RowBytes(row)), init, RowBytes(row), width, height);
  }

  lemma ReadLast(s: seq<byte>, init: seq<byte>, line: seq<byte>, width: nat, height: nat)
    requires s == init + ([0] + line) && |line| == 4 * width && ReadScanlines(init, width, height).Some?
    ensures ReadScanlines(s, width, height + 1) == Some(ReadScanlines(init, width, height).value + [ReadRow(line)])
  {
    LastLine(s, init, line);
    var k := |s| - (1 + 4 * width);
    assert s[..k] == init && s[k] == 0 && s[k + 1..] == line;
  }

  lemma LastLine(s: seq<byte>, init: seq<byte>, line: seq<byte>)
    requires s == init + ([0] + line)
    ensures var k := |s| - (1 + |line|);
            k == |init| && s[..k] == init && s[k] == 0 && s[k + 1..] == line
  {
  }

  /** A file built as `solidPng` builds it decodes to the square of that colour, whatever lossless compression is used. */
  lemma SolidDecodes(deflate: seq<byte> -> seq<byte>, inflate: seq<byte> -> Option<seq<byte>>, p: Pixel, size: nat)
    requires size < LIMIT
    requires var raw := Scanlines(Solid(p, size).rows);
             inflate(deflate(raw)) == Some(raw) && |deflate(raw)| < LIMIT
    ensures var raw := Scanlines(Solid(p, size).rows);
            Decode(inflate, SIGNATURE + FrameAll(Chunks(deflate(raw), size))) == Some(Solid(p, size))
  {
    var image := Solid(p, size);
    var raw := Scanlines(image.rows);
    var cs := Chunks(deflate(raw), size);
    var body := FrameAll(cs);
    var file := SIGNATURE + body;
    assert file[..8] == SIGNATURE && file[8..] == body;
    ReadingInvertsFraming(body, cs);
    var h := Header(size);
    assert h[..4] == BigEndian(size) && h[4..8] == BigEndian(size) && h[8..] == [8, 6, 0, 0, 0];
    ReadScanlinesBack(image.rows, size);
  }
}
