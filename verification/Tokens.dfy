/** Signed file tokens: what a token decodes to, and how long it lives. */
module Tokens {
  import opened Wrappers
  import opened Numbers
  import opened Strings

  /** Seconds since the epoch, with a fraction. */
  type Time = real

  const BUCKET: int := 3600

  function Ceil(x: real): (n: int)
    ensures (n - 1) as real < x <= n as real
  {
    -((-x).Floor)
  }

  /** `quantisedExpiry` */
  function QuantisedExpiry(now: Time, expiresIn: int): int { Ceil((now + expiresIn as real) / BUCKET as real) * BUCKET }

  /** The requested expiry lies in the `k`th hour, its end included. */
  predicate InBucket(k: int, now: Time, expiresIn: int) {
    ((k - 1) * 3600) as real < now + expiresIn as real <= (k * 3600) as real
  }

  /** The expiry is never early, and less than an hour late. */
  lemma ExpiryWithinTheHour(now: Time, expiresIn: int)
    ensures var e := QuantisedExpiry(now, expiresIn);
            now + expiresIn as real <= e as real < now + expiresIn as real + BUCKET as real
  {
  }

  /** The expiry is the end of the hour it lies in. */
  lemma ExpiryIsTheHoursEnd(k: int, now: Time, expiresIn: int)
    ensures InBucket(k, now, expiresIn) <==> QuantisedExpiry(now, expiresIn) == k * 3600
  {
    ExpiryWithinTheHour(now, expiresIn);
    var n := Ceil((now + expiresIn as real) / BUCKET as real);
    assert QuantisedExpiry(now, expiresIn) == n * 3600;
    if InBucket(k, now, expiresIn) {
      assert ((k - 1) * 3600) as real < (n * 3600) as real < (k * 3600) as real + 3600.0;
    }
  }

  /** Two mints expire together exactly if one hour holds both requested expiries. */
  lemma SameBucketSameExpiry(now: Time, expiresIn: int, later: Time, laterIn: int)
    ensures QuantisedExpiry(now, expiresIn) == QuantisedExpiry(later, laterIn)
       <==> exists k :: InBucket(k, now, expiresIn) && InBucket(k, later, laterIn)
  {
    if QuantisedExpiry(now, expiresIn) == QuantisedExpiry(later, laterIn) {
      var k := Ceil((now + expiresIn as real) / BUCKET as real);
      ExpiryIsTheHoursEnd(k, now, expiresIn);
      ExpiryIsTheHoursEnd(k, later, laterIn);
    }
    if k :| InBucket(k, now, expiresIn) && InBucket(k, later, laterIn) {
      ExpiryIsTheHoursEnd(k, now, expiresIn);
      ExpiryIsTheHoursEnd(k, later, laterIn);
    }
  }

  /** `cacheSecondsFor` */
  function CacheSeconds(expires: int, now: Time): int {
    var left := (expires as real - now).Floor;
    if left < 0 then 0 else left
  }

  /** A response is cached for the whole seconds its token has left, and not at all once it has expired. */
  lemma CacheNeverOutlivesTheToken(expires: int, now: Time)
    ensures var cached := CacheSeconds(expires, now);
            if now > expires as real then cached == 0
            else 0 <= cached && now + cached as real <= expires as real < now + cached as real + 1.0
  {
  }

  // ---- Encoding ----

  datatype Fields = Fields(scope: string, key: string, mimeType: string, expires: int)

  /** What a token says; an expiry that is not a number stays None. */
  datatype Decoded = Decoded(scope: string, key: string, mimeType: string, expires: Option<int>)

  function Said(d: Fields): Decoded { Decoded(d.scope, d.key, d.mimeType, Some(d.expires)) }

  /** The base64url codec and the keyed hash of one server process. */
  datatype Codec = Codec(encode: string -> string, decode: string -> string, mac: string -> string)

  ghost predicate Lossless(c: Codec) {
    forall s :: c.decode(c.encode(s)) == s && '.' !in c.encode(s)
  }

  function Payload(d: Fields): string {
    JoinWith([d.scope, d.key, d.mimeType, Text(d.expires)], '|')
  }

  function Mint(c: Codec, d: Fields): string {
    c.encode(Payload(d)) + "." + c.mac(Payload(d))
  }

  function CreateFileToken(c: Codec, key: string, mimeType: string, expiresIn: int, now: Time): string {
    Mint(c, Fields("r", key, mimeType, QuantisedExpiry(now, expiresIn)))
  }

  function CreateUploadToken(c: Codec, key: string, mimeType: string, expiresIn: int, now: Time): string {
    Mint(c, Fields("w", key, mimeType, now.Floor + expiresIn))
  }

  function IndexOf(s: string, x: char): (i: Option<nat>)
    ensures i.Some? ==> i.value < |s| && s[i.value] == x && x !in s[..i.value]
    ensures i.None? ==> x !in s
  {
    if s == "" then None
    else if s[0] == x then Some(0)
    else
      var i := IndexOf(s[1..], x);
      if i.None? then None else Some(i.value + 1)
  }

  function ParseNatural(s: string): Option<int> {
    if Leading(s) == "" then None else Some(Value(Leading(s)))
  }

  /** `parseInt(s, 10)`; None is NaN. */
  function ParseInt(s: string): Option<int> {
    var t := TrimStart(s);
    if t == "" then None
    else if t[0] == '+' then ParseNatural(t[1..])
    else if t[0] == '-' then
      var n := ParseNatural(t[1..]);
      if n.None? then None else Some(-n.value)
    else ParseNatural(t)
  }

  /** White space, a sign or none, digits, and anything that does not begin with another. */
  ghost predicate ReadsAs(s: string, n: int, space: string, sign: string, d: string, rest: string) {
    && s == space + (sign + (d + rest)) && AllSpace(space) && sign in {"", "+", "-"}
    && d != "" && AllDigits(d) && (rest != "" ==> !IsDigit(rest[0]))
    && (if sign == "-" then n + Value(d) == 0 else n == Value(d))
  }

  lemma {:induction false} LeadingRun(d: string, rest: string)
    requires AllDigits(d) && (rest != "" ==> !IsDigit(rest[0]))
    ensures Leading(d + rest) == d
  {
    if d != "" {
      LeadingRun(d[1..], rest);
      assert (d + rest)[1..] == d[1..] + rest && d == [d[0]] + d[1..];
    } else {
      assert d + rest == rest;
    }
  }

  lemma {:induction false} LeadingEnds(s: string)
    ensures var rest := s[|Leading(s)|..]; rest != "" ==> !IsDigit(rest[0])
  {
    if s != "" && IsDigit(s[0]) {
      LeadingEnds(s[1..]);
      assert s[|Leading(s)|..] == s[1..][|Leading(s[1..])|..];
    }
  }

  lemma SignOf(t: string, sign: string, d: string, rest: string)
    requires t == sign + (d + rest) && sign in {"", "+", "-"} && d != "" && AllDigits(d)
    ensures t != "" && !IsSpace(t[0]) && t[|sign|..] == d + rest
    ensures sign == if t[0] == '+' then "+" else if t[0] == '-' then "-" else ""
  {
    assert IsDigit(d[0]) && (d + rest)[0] == d[0];
    if sign == "" { assert t == d + rest; } else { assert t[0] == sign[0]; }
  }

  lemma ReadsBack(s: string, n: int, space: string, sign: string, d: string, rest: string)
    requires ReadsAs(s, n, space, sign, d, rest)
    ensures ParseInt(s) == Some(n)
  {
    var t := sign + (d + rest);
    SignOf(t, sign, d, rest);
    TrimsTheSpace(space, t);
    LeadingRun(d, rest);
  }

  lemma ReadFrom(t: string, n: int) returns (sign: string, d: string, rest: string)
    requires t != "" && n == (if t[0] == '-' then -1 else 1) * Value(Leading(t[|SignAt(t)|..])) && Leading(t[|SignAt(t)|..]) != ""
    ensures ReadsAs(t, n, "", sign, d, rest)
  {
    sign := SignAt(t);
    var u := t[|sign|..];
    d := Leading(u);
    rest := u[|d|..];
    LeadingEnds(u);
    assert t == sign + u && u == d + rest;
    assert t == "" + (sign + (d + rest));
  }

  function SignAt(t: string): string
    requires t != ""
  {
    if t[0] == '+' then "+" else if t[0] == '-' then "-" else ""
  }

  /** A number is read from a string exactly if the string starts with one. */
  lemma ParsesExactly(s: string, n: int)
    ensures ParseInt(s) == Some(n) <==> exists space, sign, d, rest :: ReadsAs(s, n, space, sign, d, rest)
  {
    if space, sign, d, rest :| ReadsAs(s, n, space, sign, d, rest) {
      ReadsBack(s, n, space, sign, d, rest);
    }
    if ParseInt(s) == Some(n) {
      var space := SpaceTrimmed(s);
      var t := TrimStart(s);
      assert t[|SignAt(t)|..] == if t[0] in {'+', '-'} then t[1..] else t;
      hide TrimStart, Leading, Value, IsSpace;
      var sign, d, rest := ReadFrom(t, n);
      assert ReadsAs(s, n, space, sign, d, rest);
    }
  }

  /** `now > expires`, which is false of NaN. */
  predicate Expired(expires: Option<int>, now: Time) { expires.Some? && now > expires.value as real }

  /** `decodeSignedToken` */
  function DecodeSignedToken(c: Codec, token: string, now: Time): Option<Decoded> {
    var dot := IndexOf(token, '.');
    if dot.None? then None
    else
      var payload := c.decode(token[..dot.value]);
      if token[dot.value + 1..] != c.mac(payload) then None
      else
        var parts := SplitOn(payload, '|');
        if |parts| != 3 && |parts| != 4 then None
        else
          var expires := ParseInt(parts[|parts| - 1]);
          if Expired(expires, now) then None
          else if |parts| == 3 then Some(Decoded("r", parts[0], parts[1], expires))
          else Some(Decoded(parts[0], parts[1], parts[2], expires))
  }

  function VerifyFileToken(c: Codec, token: string, now: Time): Option<Decoded> {
    var d := DecodeSignedToken(c, token, now);
    if d.Some? && d.value.scope == "r" then d else None
  }

  function VerifyUploadToken(c: Codec, token: string, now: Time): Option<Decoded> {
    var d := DecodeSignedToken(c, token, now);
    if d.Some? && d.value.scope == "w" then d else None
  }

  lemma ParsesItsText(n: int)
    ensures ParseInt(Text(n)) == Some(n)
    ensures '|' !in Text(n)
  {
    var m: nat := if n < 0 then -n else n;
    var d, sign := Digits(m), if n < 0 then "-" else "";
    ValueOfDigits(m);
    NoBar(d);
    hide ParseInt, IsSpace, Digits, Value;
    assert Text(n) == "" + (sign + (d + ""));
    ReadsBack(Text(n), n, "", sign, d, "");
  }

  lemma NoBar(d: string)
    requires AllDigits(d)
    ensures '|' !in d
  {
  }

  lemma {:induction false} CountParts(s: string, c: char)
    ensures |SplitOn(s, c)| == 1 <==> c !in s
  {
    if s != "" {
      CountParts(s[1..], c);
      assert s == [s[0]] + s[1..];
    }
  }

  lemma {:induction false} FindsTheDot(a: string, b: string)
    requires '.' !in a
    ensures IndexOf(a + "." + b, '.') == Some(|a|)
  {
    var s := a + "." + b;
    if a != "" {
      FindsTheDot(a[1..], b);
      assert s[1..] == a[1..] + "." + b && s[0] == a[0];
    }
  }

  /**
   * A minted token decodes to exactly what it was minted from, or to nothing: nothing where its key or type holds the
   * separator, or where it has expired.
   */
  lemma DecodesToWhatWasMinted(c: Codec, d: Fields, now: Time)
    requires Lossless(c) && '|' !in d.scope
    ensures DecodeSignedToken(c, Mint(c, d), now)
         == if '|' in d.key || '|' in d.mimeType || now > d.expires as real then None else Some(Said(d))
  {
    var payload := Payload(d);
    var e, sig := c.encode(payload), c.mac(payload);
    FindsTheDot(e, sig);
    var token := Mint(c, d);
    assert token[..|e|] == e && token[|e| + 1..] == sig;
    ParsesItsText(d.expires);
    PartsOf(d);
  }

  /** The payload splits into its four fields, or into more than four. */
  lemma PartsOf(d: Fields)
    requires '|' !in d.scope
    ensures var parts := SplitOn(Payload(d), '|');
            if '|' in d.key || '|' in d.mimeType then |parts| > 4
            else parts == [d.scope, d.key, d.mimeType, Text(d.expires)]
  {
    var x := Text(d.expires);
    ParsesItsText(d.expires);
    var tail := d.mimeType + ['|'] + x;
    var rest := d.key + ['|'] + tail;
    var four := [d.scope, d.key, d.mimeType, x];
    assert four[1..] == [d.key, d.mimeType, x] && four[1..][1..] == [d.mimeType, x] && four[1..][1..][1..] == [x];
    assert JoinWith([x], '|') == x;
    assert JoinWith([d.mimeType, x], '|') == tail;
    assert JoinWith([d.key, d.mimeType, x], '|') == rest;
    assert Payload(d) == d.scope + ['|'] + rest;
    SplitPlain(x, '|');
    SplitAppend(d.mimeType, x, '|');
    SplitAppend(d.key, tail, '|');
    SplitFirst(d.scope, rest, '|');
    CountParts(d.key, '|');
    CountParts(d.mimeType, '|');
    if '|' !in d.key { SplitPlain(d.key, '|'); }
    if '|' !in d.mimeType { SplitPlain(d.mimeType, '|'); }
  }

  // ---- Which strings are tokens ----

  /** The text says these fields, joined by the separator; without a scope it is a token for reading, as they once were. */
  ghost predicate Says(payload: string, d: Decoded) {
    && '|' !in d.scope && '|' !in d.key && '|' !in d.mimeType
    && exists x: string :: '|' !in x && ParseInt(x) == d.expires
         && (payload == JoinWith([d.scope, d.key, d.mimeType, x], '|')
             || (d.scope == "r" && payload == JoinWith([d.key, d.mimeType, x], '|')))
  }

  /** The token carries this server's signature of what its first part decodes to. */
  ghost predicate Signed(c: Codec, token: string, payload: string) {
    exists e: string :: '.' !in e && c.decode(e) == payload && token == e + "." + c.mac(payload)
  }

  lemma DotSplits(c: Codec, token: string, payload: string)
    ensures Signed(c, token, payload) <==>
      var dot := IndexOf(token, '.');
      dot.Some? && c.decode(token[..dot.value]) == payload && token[dot.value + 1..] == c.mac(payload)
  {
    if e: string :| '.' !in e && c.decode(e) == payload && token == e + "." + c.mac(payload) {
      FindsTheDot(e, c.mac(payload));
      assert token[..|e|] == e && token[|e| + 1..] == c.mac(payload);
    }
    var dot := IndexOf(token, '.');
    if dot.Some? && c.decode(token[..dot.value]) == payload && token[dot.value + 1..] == c.mac(payload) {
      assert token == token[..dot.value] + "." + token[dot.value + 1..];
    }
  }

  /** What the parts of a payload say, by their number. */
  lemma PartsSay(payload: string, d: Decoded)
    ensures Says(payload, d) <==>
      var parts := SplitOn(payload, '|');
      || (|parts| == 4 && d == Decoded(parts[0], parts[1], parts[2], ParseInt(parts[3])))
      || (|parts| == 3 && d == Decoded("r", parts[0], parts[1], ParseInt(parts[2])))
  {
    hide ParseInt;
    var parts := SplitOn(payload, '|');
    JoinSplit(payload, '|');
    if Says(payload, d) {
      var x :| '|' !in x && ParseInt(x) == d.expires
         && (payload == JoinWith([d.scope, d.key, d.mimeType, x], '|')
             || (d.scope == "r" && payload == JoinWith([d.key, d.mimeType, x], '|')));
      SplitJoin([d.scope, d.key, d.mimeType, x], '|');
      SplitJoin([d.key, d.mimeType, x], '|');
    }
    if |parts| == 4 { assert parts == [parts[0], parts[1], parts[2], parts[3]]; }
    if |parts| == 3 { assert parts == [parts[0], parts[1], parts[2]]; }
  }

  /** A string decodes exactly if it is signed, to exactly what it says, and not once its expiry has passed. */
  lemma AcceptsOnlyTheSigned(c: Codec, token: string, now: Time, d: Decoded)
    ensures DecodeSignedToken(c, token, now) == Some(d) <==>
      && (exists payload :: Signed(c, token, payload) && Says(payload, d))
      && !(d.expires.Some? && now > d.expires.value as real)
  {
    hide ParseInt, IndexOf, SplitOn, JoinWith;
    var dot := IndexOf(token, '.');
    if dot.Some? {
      var payload := c.decode(token[..dot.value]);
      DotSplits(c, token, payload);
      PartsSay(payload, d);
    }
    if exists payload :: Signed(c, token, payload) && Says(payload, d) {
      var payload :| Signed(c, token, payload) && Says(payload, d);
      DotSplits(c, token, payload);
      PartsSay(payload, d);
    }
  }

  /** A scope admits exactly the tokens that say it, and so never a token of the other scope. */
  lemma ScopesAdmit(c: Codec, token: string, now: Time, d: Decoded)
    ensures VerifyFileToken(c, token, now) == Some(d) <==> DecodeSignedToken(c, token, now) == Some(d) && d.scope == "r"
    ensures VerifyUploadToken(c, token, now) == Some(d) <==> DecodeSignedToken(c, token, now) == Some(d) && d.scope == "w"
  {
  }

  /**
   * A token for reading never uploads, and the other way round; each is good for its own key and type until it expires,
   * unless one of them holds the separator.
   */
  lemma ScopesApart(c: Codec, key: string, mimeType: string, expiresIn: int, minted: Time, now: Time)
    requires Lossless(c)
    ensures VerifyUploadToken(c, CreateFileToken(c, key, mimeType, expiresIn, minted), now) == None
    ensures VerifyFileToken(c, CreateUploadToken(c, key, mimeType, expiresIn, minted), now) == None
    ensures now <= minted + expiresIn as real && '|' !in key && '|' !in mimeType ==>
      VerifyFileToken(c, CreateFileToken(c, key, mimeType, expiresIn, minted), now)
      == Some(Decoded("r", key, mimeType, Some(QuantisedExpiry(minted, expiresIn))))
    ensures var until := minted.Floor + expiresIn;
      VerifyUploadToken(c, CreateUploadToken(c, key, mimeType, expiresIn, minted), now)
      == if '|' in key || '|' in mimeType || now > until as real then None
         else Some(Decoded("w", key, mimeType, Some(until)))
  {
    ExpiryWithinTheHour(minted, expiresIn);
    DecodesToWhatWasMinted(c, Fields("r", key, mimeType, QuantisedExpiry(minted, expiresIn)), now);
    DecodesToWhatWasMinted(c, Fields("w", key, mimeType, minted.Floor + expiresIn), now);
  }

  lemma PayloadEnds(d: Fields)
    ensures Payload(d) == d.scope + ['|'] + (d.key + ['|'] + (d.mimeType + ['|'] + Text(d.expires)))
  {
    var x := Text(d.expires);
    var four := [d.scope, d.key, d.mimeType, x];
    assert four[1..] == [d.key, d.mimeType, x] && four[1..][1..] == [d.mimeType, x] && four[1..][1..][1..] == [x];
    assert JoinWith([x], '|') == x;
    assert JoinWith([d.mimeType, x], '|') == d.mimeType + ['|'] + x;
    assert JoinWith([d.key, d.mimeType, x], '|') == d.key + ['|'] + (d.mimeType + ['|'] + x);
  }

  /** Tokens minted from fields that differ at most in the expiry are the same string exactly if they expire together. */
  lemma SameTokenSameExpiry(c: Codec, d: Fields, e: Fields)
    requires Lossless(c) && e == d.(expires := e.expires)
    ensures Mint(c, d) == Mint(c, e) <==> d.expires == e.expires
  {
    if Mint(c, d) == Mint(c, e) {
      var p, q := Payload(d), Payload(e);
      FindsTheDot(c.encode(p), c.mac(p));
      FindsTheDot(c.encode(q), c.mac(q));
      assert Mint(c, d)[..|c.encode(p)|] == c.encode(p) && Mint(c, e)[..|c.encode(q)|] == c.encode(q);
      assert p == c.decode(c.encode(p)) == c.decode(c.encode(q)) == q;
      PayloadEnds(d);
      PayloadEnds(e);
      SameEnd(d.scope, d.key, d.mimeType, Text(d.expires), Text(e.expires));
      ParsesItsText(d.expires);
      ParsesItsText(e.expires);
    }
  }

  lemma SameEnd(a: string, b: string, m: string, x: string, y: string)
    requires a + ['|'] + (b + ['|'] + (m + ['|'] + x)) == a + ['|'] + (b + ['|'] + (m + ['|'] + y))
    ensures x == y
  {
    var s, t := a + ['|'] + (b + ['|'] + (m + ['|'] + x)), a + ['|'] + (b + ['|'] + (m + ['|'] + y));
    var n := |a| + |b| + |m| + 3;
    assert s[n..] == x && t[n..] == y;
  }

  /** Within an hour every URL for one file is the same, so the second load is served from the cache; across hours none is. */
  lemma SameHourSameToken(c: Codec, key: string, mimeType: string, now: Time, expiresIn: int, later: Time, laterIn: int)
    requires Lossless(c)
    ensures CreateFileToken(c, key, mimeType, expiresIn, now) == CreateFileToken(c, key, mimeType, laterIn, later)
       <==> exists k :: InBucket(k, now, expiresIn) && InBucket(k, later, laterIn)
  {
    SameBucketSameExpiry(now, expiresIn, later, laterIn);
    SameTokenSameExpiry(c, Fields("r", key, mimeType, QuantisedExpiry(now, expiresIn)),
                           Fields("r", key, mimeType, QuantisedExpiry(later, laterIn)));
  }
}
