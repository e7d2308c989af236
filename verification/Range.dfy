/** HTTP ranges: which bytes of a file a `Range` header asks for. */
module Range {
  import opened Wrappers
  import opened Numbers

  datatype Served = Whole | Unsatisfiable | Part(start: int, end: Option<int>)

  /** The header matches `bytes=<digits>-<digits>`. */
  function Match(h: string): Option<(string, string)> {
    if !("bytes=" <= h) then None
    else
      var first := Leading(h[6..]);
      var rest := h[6 + |first|..];
      if rest == "" || rest[0] != '-' || Leading(rest[1..]) != rest[1..] then None
      else Some((first, rest[1..]))
  }

  function Max(a: int, b: int): int { if a < b then b else a }

  function Min(a: int, b: int): int { if a < b then a else b }

  /** What the digits on both sides of the dash mean; either side may be empty. */
  function ByDigits(rawStart: string, rawEnd: string, size: nat): Served
    requires AllDigits(rawStart) && AllDigits(rawEnd)
  {
    if rawStart == "" then
      if rawEnd == "" then Whole
      else if Value(rawEnd) == 0 then Unsatisfiable
      else Part(Max(0, size - Value(rawEnd)), Some(size - 1))
    else if rawEnd == "" then
      if Value(rawStart) >= size then Unsatisfiable else Part(Value(rawStart), None)
    else if Value(rawStart) > Value(rawEnd) then Whole
    else if Value(rawStart) >= size then Unsatisfiable
    else Part(Value(rawStart), Some(Min(Value(rawEnd), size - 1)))
  }

  /** `parseRangeHeader`, on a header already trimmed. */
  function ParseRangeHeader(header: Option<string>, size: nat): Served {
    if header.None? || Match(header.value).None? then Whole
    else
      var (rawStart, rawEnd) := Match(header.value).value;
      assert AllDigits(rawStart) && AllDigits(rawEnd) by { assert Leading(rawEnd) == rawEnd; }
      ByDigits(rawStart, rawEnd, size)
  }

  /** What a request can ask for, by section 2.1 of RFC 7233. */
  datatype Asked = Between(first: nat, last: nat) | From(start: nat) | Last(count: nat)

  function Print(a: Asked): string {
    match a
    case Between(first, last) => "bytes=" + (Digits(first) + ("-" + Digits(last)))
    case From(first) => "bytes=" + (Digits(first) + ("-" + ""))
    case Last(n) => "bytes=" + ("" + ("-" + Digits(n)))
  }

  /** The positions of a file of `size` bytes it asks for. */
  predicate Asks(a: Asked, size: nat, i: nat) {
    i < size && match a
      case Between(first, last) => first <= i <= last
      case From(first) => first <= i
      case Last(n) => i + n >= size
  }

  predicate Serves(s: Served, size: nat, i: nat) {
    match s
    case Whole => i < size
    case Unsatisfiable => false
    case Part(start, end) => start <= i <= (if end.Some? then end.value else size - 1)
  }

  lemma MatchesPrinted(a: string, b: string)
    requires AllDigits(a) && AllDigits(b)
    ensures Match("bytes=" + (a + ("-" + b))) == Some((a, b))
  {
    var t := a + ("-" + b);
    var h := "bytes=" + t;
    assert h[6..] == t;
    LeadingStops(a, "-" + b);
    assert h[6 + |a|..] == "-" + b;
    assert ("-" + b)[1..] == b;
    LeadingOfDigits(b);
  }

  lemma {:induction false} LeadingStops(a: string, rest: string)
    requires AllDigits(a) && rest != "" && !IsDigit(rest[0])
    ensures Leading(a + rest) == a
  {
    if a != "" {
      LeadingStops(a[1..], rest);
      assert (a + rest)[1..] == a[1..] + rest && a == [a[0]] + a[1..];
    } else {
      assert a + rest == rest;
    }
  }

  lemma BetweenText(a: string, b: string, size: nat)
    requires AllDigits(a) && AllDigits(b) && a != "" && b != ""
    ensures ParseRangeHeader(Some("bytes=" + (a + ("-" + b))), size)
         == if Value(a) > Value(b) then Whole
            else if Value(a) >= size then Unsatisfiable
            else Part(Value(a), Some(Min(Value(b), size - 1)))
  {
    MatchesPrinted(a, b);
  }

  lemma BetweenServed(first: nat, last: nat, size: nat)
    ensures ParseRangeHeader(Some(Print(Between(first, last))), size)
         == if first > last then Whole
            else if first >= size then Unsatisfiable
            else Part(first, Some(Min(last, size - 1)))
  {
    ValueOfDigits(first);
    ValueOfDigits(last);
    BetweenText(Digits(first), Digits(last), size);
  }

  /**
   * A printed request is served exactly the bytes it asks for. A range whose end comes before its start is invalid and
   * is served the whole file; one that asks for no byte the file has is refused, except the last bytes of an empty file.
   */
  lemma ServesWhatIsAsked(a: Asked, size: nat)
    ensures var s := ParseRangeHeader(Some(Print(a)), size);
            && (a.Between? && a.first > a.last ==> s == Whole)
            && (!(a.Between? && a.first > a.last) ==>
                  && (forall i: nat :: Serves(s, size, i) <==> Asks(a, size, i))
                  && (s == Unsatisfiable <==> (forall i: nat :: !Asks(a, size, i)) && !(a.Last? && a.count > 0)))
  {
    match a
    case Between(first, last) =>
      BetweenServed(first, last, size);
      if first <= last && first < size { assert Asks(a, size, first); }
    case From(first) =>
      MatchesPrinted(Digits(first), "");
      ValueOfDigits(first);
      if first < size { assert Asks(a, size, first); }
    case Last(n) =>
      MatchesPrinted("", Digits(n));
      ValueOfDigits(n);
      if n > 0 && size > 0 { assert Asks(a, size, size - 1); }
  }

  /** The header is `bytes=`, digits, a dash and digits, either of which may be missing. */
  ghost predicate HasForm(h: string, a: string, b: string) {
    AllDigits(a) && AllDigits(b) && h == "bytes=" + (a + ("-" + b))
  }

  lemma MatchHasTheForm(h: string)
    requires Match(h).Some?
    ensures HasForm(h, Match(h).value.0, Match(h).value.1)
  {
    var t := h[6..];
    var a := Leading(t);
    assert h == h[..6] + t && h[..6] == "bytes=";
    assert t[|a|..] == h[6 + |a|..];
    hide Leading;
    var rest := t[|a|..];
    assert t == a + rest && rest == ['-'] + rest[1..];
  }

  lemma MatchIsTheForm(h: string, a: string, b: string)
    ensures Match(h) == Some((a, b)) <==> HasForm(h, a, b)
  {
    if HasForm(h, a, b) { MatchesPrinted(a, b); }
    hide Match, HasForm;
    if Match(h) == Some((a, b)) { MatchHasTheForm(h); }
  }

  /**
   * Any other header, and one that names neither end, is served the whole file; one that has the form is served what
   * the printed request with the same numbers is, leading zeros or not.
   */
  lemma EveryHeader(h: string, size: nat)
    ensures (forall a, b :: !HasForm(h, a, b)) ==> ParseRangeHeader(Some(h), size) == Whole
    ensures ParseRangeHeader(None, size) == Whole
    ensures forall a, b :: HasForm(h, a, b) ==>
      ParseRangeHeader(Some(h), size) ==
        if a == "" && b == "" then Whole
        else ParseRangeHeader(Some(Print(AskedBy(a, b))), size)
  {
    if Match(h).Some? { MatchIsTheForm(h, Match(h).value.0, Match(h).value.1); }
    forall a, b | HasForm(h, a, b) && (a != "" || b != "")
      ensures ParseRangeHeader(Some(h), size)
           == ParseRangeHeader(Some(Print(AskedBy(a, b))), size)
    {
      SameNumbers(h, a, b, size);
    }
    forall a, b | HasForm(h, a, b) ensures Match(h) == Some((a, b)) {
      MatchIsTheForm(h, a, b);
    }
  }

  lemma ByTheForm(h: string, a: string, b: string, size: nat)
    requires HasForm(h, a, b)
    ensures ParseRangeHeader(Some(h), size) == ByDigits(a, b, size)
  {
    MatchIsTheForm(h, a, b);
    hide Match;
  }

  function AskedBy(a: string, b: string): Asked
    requires AllDigits(a) && AllDigits(b)
  {
    if a == "" then Last(Value(b)) else if b == "" then From(Value(a)) else Between(Value(a), Value(b))
  }

  lemma SameNumbers(h: string, a: string, b: string, size: nat)
    requires HasForm(h, a, b) && (a != "" || b != "")
    ensures ParseRangeHeader(Some(h), size) == ParseRangeHeader(Some(Print(AskedBy(a, b))), size)
  {
    ByTheForm(h, a, b, size);
    var a1, b1 := if a == "" then "" else Digits(Value(a)), if b == "" then "" else Digits(Value(b));
    ValueOfDigits(Value(a));
    ValueOfDigits(Value(b));
    hide ParseRangeHeader, Digits, Value;
    assert HasForm(Print(AskedBy(a, b)), a1, b1);
    ByTheForm(Print(AskedBy(a, b)), a1, b1, size);
  }

  /** For every header: an honoured range lies within a file that has any bytes. */
  lemma HonouredWithinTheFile(header: Option<string>, size: nat)
    requires ParseRangeHeader(header, size).Part?
    ensures var s := ParseRangeHeader(header, size);
            var end := if s.end.Some? then s.end.value else size - 1;
            && (size > 0 <==> 0 <= s.start <= end < size)
            && (size == 0 ==> s == Part(0, Some(-1)))
  {
  }

  // ---- A file in fixed-size requests ----

  /** The bytes and the length the file route sends. */
  function Body(file: seq<char>, s: Served): seq<char>
    requires s.Part? ==> 0 <= s.start <= (if s.end.Some? then s.end.value else |file| - 1) < |file|
  {
    match s
    case Whole => file
    case Unsatisfiable => []
    case Part(start, end) => file[start..(if end.Some? then end.value else |file| - 1) + 1]
  }

  /** The body holds the bytes served and no others, in order. */
  lemma BodyIsWhatIsServed(file: seq<char>, s: Served)
    requires s.Part? ==> 0 <= s.start <= (if s.end.Some? then s.end.value else |file| - 1) < |file|
    ensures var from := if s.Part? then s.start else 0;
            && (forall i :: 0 <= i < |file| && Serves(s, |file|, i) ==>
                  0 <= i - from < |Body(file, s)| && Body(file, s)[i - from] == file[i])
            && (forall i: nat :: from <= i < from + |Body(file, s)| ==> i < |file| && Serves(s, |file|, i))
  {
    match s
    case Whole =>
      assert Body(file, s) == file;
    case Unsatisfiable =>
      assert |Body(file, s)| == 0;
    case Part(start, end) =>
      var last := if end.Some? then end.value else |file| - 1;
      var body := Body(file, s);
      assert body == file[start..last + 1] && |body| == last + 1 - start;
      forall i: nat | start <= i < start + |body| ensures i < |file| && Serves(s, |file|, i) {
        assert i <= last;
      }
  }

  function Chunk(file: seq<char>, k: nat, chunk: nat): (body: seq<char>)
    requires chunk > 0
  {
    var s := ParseRangeHeader(Some(Print(Between(k, k + chunk - 1))), |file|);
    if s.Part? then
      HonouredWithinTheFile(Some(Print(Between(k, k + chunk - 1))), |file|);
      NotEmpty(k, chunk, |file|);
      Body(file, s)
    else []
  }

  lemma NotEmpty(k: nat, chunk: nat, size: nat)
    requires chunk > 0
    ensures ParseRangeHeader(Some(Print(Between(k, k + chunk - 1))), size)
         == if k >= size then Unsatisfiable else Part(k, Some(Min(k + chunk - 1, size - 1)))
  {
    BetweenServed(k, k + chunk - 1, size);
  }

  /** What a client has after asking for one chunk after another from `k` on, until the end. */
  function Fetched(get: nat -> seq<char>, size: nat, k: nat, chunk: nat): seq<char>
    requires chunk > 0
    decreases size - k
  {
    if k >= size then [] else get(k) + Fetched(get, size, k + chunk, chunk)
  }

  lemma {:induction false} PiecesReassemble(file: seq<char>, get: nat -> seq<char>, k: nat, chunk: nat)
    requires chunk > 0 && k <= |file|
    requires forall j: nat :: j < |file| ==> get(j) == file[j..Min(j + chunk, |file|)]
    ensures Fetched(get, |file|, k, chunk) == file[k..]
    decreases |file| - k
  {
    if k < |file| {
      var next := k + chunk;
      if next < |file| {
        PiecesReassemble(file, get, next, chunk);
        assert file[k..] == file[k..next] + file[next..];
      } else {
        assert file[k..|file|] == file[k..];
      }
    }
  }

  function ChunkAt(file: seq<char>, chunk: nat): nat -> seq<char>
    requires chunk > 0
  {
    (k: nat) => Chunk(file, k, chunk)
  }

  /** The bodies of consecutive fixed-size requests are the file. */
  lemma ChunksReassemble(file: seq<char>, chunk: nat)
    requires chunk > 0
    ensures Fetched(ChunkAt(file, chunk), |file|, 0, chunk) == file
  {
    forall j: nat | j < |file| ensures Chunk(file, j, chunk) == file[j..Min(j + chunk, |file|)] {
      ChunkIs(file, j, chunk);
    }
    PiecesReassemble(file, ChunkAt(file, chunk), 0, chunk);
  }

  lemma ChunkIs(file: seq<char>, k: nat, chunk: nat)
    requires chunk > 0 && k < |file|
    ensures Chunk(file, k, chunk) == file[k..Min(k + chunk, |file|)]
  {
    NotEmpty(k, chunk, |file|);
  }
}
