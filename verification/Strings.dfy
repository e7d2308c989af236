/** Splitting and joining strings at a separator character. */
module Strings {
  /** What JavaScript takes for white space. */
  predicate IsSpace(c: char) {
    || c in {' ', '\t', '\n', '\r', '\U{B}', '\U{C}', '\U{A0}', '\U{1680}'}
    || c in {'\U{2028}', '\U{2029}', '\U{202F}', '\U{205F}', '\U{3000}', '\U{FEFF}'}
    || '\U{2000}' <= c <= '\U{200A}'
  }

  predicate AllSpace(s: string) { forall i :: 0 <= i < |s| ==> IsSpace(s[i]) }

  function TrimStart(s: string): string {
    if s != "" && IsSpace(s[0]) then TrimStart(s[1..]) else s
  }

  function TrimEnd(s: string): string {
    if s != "" && IsSpace(s[|s| - 1]) then TrimEnd(s[..|s| - 1]) else s
  }

  /** JavaScript's `s.trim()` */
  function Trim(s: string): string { TrimEnd(TrimStart(s)) }

  lemma {:induction false} TrimsTheSpace(space: string, t: string)
    requires AllSpace(space) && (t != "" ==> !IsSpace(t[0]))
    ensures TrimStart(space + t) == t
  {
    if space != "" {
      assert (space + t)[1..] == space[1..] + t;
      TrimsTheSpace(space[1..], t);
    } else {
      assert space + t == t;
    }
  }

  lemma {:induction false} SpaceTrimmed(s: string) returns (space: string)
    ensures s == space + TrimStart(s) && AllSpace(space) && (TrimStart(s) != "" ==> !IsSpace(TrimStart(s)[0]))
  {
    if s != "" && IsSpace(s[0]) {
      space := SpaceTrimmed(s[1..]);
      space := [s[0]] + space;
      assert s == [s[0]] + s[1..];
    } else {
      space := "";
    }
  }

  lemma {:induction false} TrimsTheEnd(t: string, space: string)
    requires AllSpace(space) && (t != "" ==> !IsSpace(t[|t| - 1]))
    ensures TrimEnd(t + space) == t
  {
    if space != "" {
      assert (t + space)[..|t + space| - 1] == t + space[..|space| - 1];
      TrimsTheEnd(t, space[..|space| - 1]);
    } else {
      assert t + space == t;
    }
  }

  lemma {:induction false} EndTrimmed(s: string) returns (space: string)
    ensures s == TrimEnd(s) + space && AllSpace(space)
    ensures TrimEnd(s) != "" ==> !IsSpace(TrimEnd(s)[|TrimEnd(s)| - 1])
    decreases |s|
  {
    if s != "" && IsSpace(s[|s| - 1]) {
      var before := s[..|s| - 1];
      space := EndTrimmed(before);
      space := space + [s[|s| - 1]];
      assert s == before + [s[|s| - 1]];
    } else {
      space := "";
    }
  }

  /** White space, the trimmed string, white space, where the trimmed string neither begins nor ends with any. */
  ghost predicate TrimsTo(s: string, a: string, t: string, b: string) {
    s == a + (t + b) && AllSpace(a) && AllSpace(b) && (t != "" ==> !IsSpace(t[0]) && !IsSpace(t[|t| - 1]))
  }

  /** Trimming finds the one such string. */
  lemma TrimExactly(s: string, t: string)
    ensures Trim(s) == t <==> exists a, b :: TrimsTo(s, a, t, b)
  {
    if a, b :| TrimsTo(s, a, t, b) {
      if t == "" {
        assert s == (a + b) + "" && AllSpace(a + b);
        TrimsTheSpace(a + b, "");
      } else {
        assert (t + b)[0] == t[0];
        TrimsTheSpace(a, t + b);
        TrimsTheEnd(t, b);
      }
    }
    if Trim(s) == t {
      var a := SpaceTrimmed(s);
      var b := EndTrimmed(TrimStart(s));
      assert t != "" ==> t[0] == TrimStart(s)[0];
      assert TrimsTo(s, a, t, b);
    }
  }

  /** JavaScript's `s.split(c)` for a one-character separator. */
  function SplitOn(s: string, c: char): (parts: seq<string>)
    ensures parts != []
  {
    if s == "" then [""]
    else if s[0] == c then [""] + SplitOn(s[1..], c)
    else
      var rest := SplitOn(s[1..], c);
      [[s[0]] + rest[0]] + rest[1..]
  }

  function JoinWith(parts: seq<string>, c: char): string
    requires parts != []
  {
    if |parts| == 1 then parts[0] else parts[0] + [c] + JoinWith(parts[1..], c)
  }

  lemma {:induction false} SplitPlain(s: string, c: char)
    requires c !in s
    ensures SplitOn(s, c) == [s]
  {
    if s != "" {
      SplitPlain(s[1..], c);
      assert [s[0]] + s[1..] == s;
    }
  }

  lemma {:induction false} SplitFirst(a: string, b: string, c: char)
    requires c !in a
    ensures SplitOn(a + [c] + b, c) == [a] + SplitOn(b, c)
  {
    var s := a + [c] + b;
    if a == "" {
      assert s == [c] + b && s[1..] == b;
    } else {
      SplitFirst(a[1..], b, c);
      assert s[1..] == a[1..] + [c] + b;
      assert [a[0]] + a[1..] == a;
    }
  }

  /** Parts that do not hold the separator survive joining and splitting. */
  lemma {:induction false} SplitJoin(parts: seq<string>, c: char)
    requires parts != [] && forall i :: 0 <= i < |parts| ==> c !in parts[i]
    ensures SplitOn(JoinWith(parts, c), c) == parts
  {
    if |parts| == 1 {
      SplitPlain(parts[0], c);
    } else {
      SplitJoin(parts[1..], c);
      SplitFirst(parts[0], JoinWith(parts[1..], c), c);
    }
  }

  lemma {:induction false} JoinSplit(s: string, c: char)
    ensures JoinWith(SplitOn(s, c), c) == s
    ensures forall i :: 0 <= i < |SplitOn(s, c)| ==> c !in SplitOn(s, c)[i]
  {
    if s != "" {
      JoinSplit(s[1..], c);
      var rest := SplitOn(s[1..], c);
      if s[0] != c {
        var parts := [[s[0]] + rest[0]] + rest[1..];
        assert parts[1..] == rest[1..];
        assert [s[0]] + s[1..] == s;
      } else {
        assert ([""] + rest)[1..] == rest;
        assert "" + [c] + s[1..] == s;
      }
    }
  }

  lemma {:induction false} SplitAppend(a: string, b: string, c: char)
    ensures SplitOn(a + [c] + b, c) == SplitOn(a, c) + SplitOn(b, c)
  {
    var s := a + [c] + b;
    if a == "" {
      assert s == [c] + b && s[1..] == b;
    } else {
      SplitAppend(a[1..], b, c);
      assert s[1..] == a[1..] + [c] + b && s[0] == a[0];
      Lengthen(a[0], SplitOn(a[1..], c), SplitOn(b, c), c);
    }
  }

  /** The parts of a string with one more character in front. */
  function Prepend(x: char, parts: seq<string>, c: char): seq<string>
    requires parts != []
  {
    if x == c then [""] + parts else [[x] + parts[0]] + parts[1..]
  }

  lemma Lengthen(x: char, p: seq<string>, q: seq<string>, c: char)
    requires p != []
    ensures Prepend(x, p + q, c) == Prepend(x, p, c) + q
  {
  }
}
