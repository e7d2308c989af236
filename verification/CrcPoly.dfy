/** CRC-32 as arithmetic: the register is the remainder of a division of polynomials over two elements. */
module CrcPoly {
  import opened Bits
  import Crc

  /** A polynomial, as the exponents of its terms. */
  type Poly = set<nat>

  /** The generator of section 3.4 of RFC 2083. */
  const G: Poly := {32, 26, 23, 22, 16, 12, 11, 10, 8, 7, 5, 4, 2, 1, 0}

  function Add(p: Poly, r: Poly): Poly { (p - r) + (r - p) }

  function Raise(p: Poly, k: nat): Poly { set e | e in p :: e + k }

  ghost predicate DegreeBelow(p: Poly, k: nat) { forall e :: e in p ==> e < k }

  /** The register keeps the highest power in its lowest bit. */
  function RegisterPoly(c: Word): Poly { set e: nat | e < 32 && HasTerm(c, e) }

  predicate HasTerm(c: Word, e: nat) { e < 32 && c[31 - e] }

  function MessagePoly(bits: seq<bool>): Poly {
    if bits == [] then {}
    else Add(Raise(MessagePoly(bits[..|bits| - 1]), 1), if bits[|bits| - 1] then {0} else {})
  }

  /** The multiple of the generator by the polynomial with these coefficients, highest first. */
  function Multiple(q: seq<bool>): Poly {
    if q == [] then {} else Add(Raise(Multiple(q[..|q| - 1]), 1), Once(q[|q| - 1]))
  }

  /** The generator, or nothing. */
  function Once(b: bool): Poly { if b then G else {} }

  /** `p` and `r` leave the same remainder. */
  ghost predicate Congruent(p: Poly, r: Poly) { exists q :: p == Add(r, Multiple(q)) }

  // ---- The register divides ----

  lemma ShiftDivides(c: Word)
    ensures RegisterPoly(Shift(c)) == Add(Raise(RegisterPoly(c), 1), Once(c[0]))
  {
    var p := Add(Raise(RegisterPoly(c), 1), Once(c[0]));
    forall e: nat | e < 33 ensures e in RegisterPoly(Shift(c)) <==> e in p {
      GeneratorBit(e);
      assert e in Raise(RegisterPoly(c), 1) <==> e >= 1 && e - 1 in RegisterPoly(c);
      if e < 32 { ShiftedBit(c, 31 - e); }
    }
    assert forall e :: e in RegisterPoly(Shift(c)) || e in p ==> e < 33;
  }

  lemma GeneratorBit(e: nat)
    requires e < 33
    ensures e in G <==> e == 32 || POLY[31 - e]
  {
  }

  /** The quotient the register discards while it takes in `bits`. */
  function Quotient(c: Word, bits: seq<bool>): (q: seq<bool>)
    ensures |q| == |bits|
  {
    if bits == [] then []
    else Quotient(c, bits[..|bits| - 1]) + [PushBits(c, bits[..|bits| - 1])[0] != bits[|bits| - 1]]
  }

  function Dividend(c: Word, bits: seq<bool>): Poly {
    Add(Raise(RegisterPoly(c), |bits|), Raise(MessagePoly(bits), 32))
  }

  lemma {:induction false} RegisterIsCongruent(c: Word, bits: seq<bool>)
    ensures Dividend(c, bits) == Add(RegisterPoly(PushBits(c, bits)), Multiple(Quotient(c, bits)))
    decreases |bits|
  {
    if bits == [] {
      assert Raise(RegisterPoly(c), 0) == RegisterPoly(c);
    } else {
      var n := |bits| - 1;
      var init, b := bits[..n], bits[n];
      var c1 := PushBits(c, init);
      var low := c1[0] != b;
      var g := Once(low);
      var m := Multiple(Quotient(c, init));
      RegisterIsCongruent(c, init);
      ShiftDivides(Xor(c1, BitAt(0, b)));
      BitEntersOnTop(c1, b);
      assert Quotient(c, bits)[..n] == Quotient(c, init);
      var t := if b then {32} else {};
      DividendGrows(c, bits);
      RaiseAdd(RegisterPoly(c1), m, 1);
      Cancel(Raise(RegisterPoly(c1), 1), Raise(m, 1), t, g);
    }
  }

  /** The new bit lands on the highest power, which one shift then raises to 32. */
  lemma BitEntersOnTop(c: Word, b: bool)
    ensures Raise(RegisterPoly(Xor(c, BitAt(0, b))), 1) == Add(Raise(RegisterPoly(c), 1), if b then {32} else {})
  {
    var p, r := RegisterPoly(Xor(c, BitAt(0, b))), RegisterPoly(c);
    forall e: nat ensures e in p <==> e in Add(r, if b then {31} else {}) {
      if e < 32 { assert Xor(c, BitAt(0, b))[31 - e] == (c[31 - e] != (e == 31 && b)); }
    }
    assert p == Add(r, if b then {31} else {});
    RaiseAdd(r, if b then {31} else {}, 1);
    assert Raise({31}, 1) == {32} by { assert 31 in {31}; }
  }

  lemma DividendGrows(c: Word, bits: seq<bool>)
    requires bits != []
    ensures Dividend(c, bits)
         == Add(Raise(Dividend(c, bits[..|bits| - 1]), 1), if bits[|bits| - 1] then {32} else {})
  {
    var n := |bits| - 1;
    var m, t := MessagePoly(bits[..n]), if bits[n] then {0} else {};
    var r := RegisterPoly(c);
    RaiseTwice(r, n, 1);
    RaiseAdd(Raise(m, 1), t, 32);
    RaiseTwice(m, 1, 32);
    RaiseTwice(m, 32, 1);
    RaiseAdd(Raise(r, n), Raise(m, 32), 1);
    assert Raise({0}, 32) == {32} by { assert 0 in {0}; }
    AddAssoc(Raise(r, n + 1), Raise(m, 33), Raise(t, 32));
  }

  lemma RaiseAdd(p: Poly, r: Poly, k: nat)
    ensures Raise(Add(p, r), k) == Add(Raise(p, k), Raise(r, k))
  {
  }

  lemma RaiseTwice(p: Poly, j: nat, k: nat)
    ensures Raise(Raise(p, j), k) == Raise(p, j + k)
  {
    forall e: nat ensures e in Raise(Raise(p, j), k) <==> e in Raise(p, j + k) {
      RaiseAt(Raise(p, j), k, e);
      RaiseAt(p, j + k, e);
      if e >= k { RaiseAt(p, j, e - k); }
    }
  }

  lemma RaiseAt(p: Poly, k: nat, e: nat)
    ensures e in Raise(p, k) <==> e >= k && e - k in p
  {
  }

  lemma AddAssoc(a: Poly, b: Poly, c: Poly)
    ensures Add(Add(a, b), c) == Add(a, Add(b, c))
  {
  }

  lemma Cancel(r: Poly, m: Poly, t: Poly, g: Poly)
    ensures Add(Add(r, m), t) == Add(Add(Add(r, t), g), Add(m, g))
  {
  }

  // ---- There is only one remainder ----

  lemma {:induction false} MultipleBounded(q: seq<bool>)
    ensures DegreeBelow(Multiple(q), 32 + |q|)
    ensures q != [] && q[0] ==> 31 + |q| in Multiple(q)
    decreases |q|
  {
    if q != [] {
      var init := q[..|q| - 1];
      MultipleBounded(init);
      if init != [] { assert init[0] == q[0]; }
      OneMoreTerm(Multiple(init), q[|q| - 1], 31 + |q|);
    }
  }

  lemma OneMoreTerm(p: Poly, b: bool, top: nat)
    requires top >= 32 && DegreeBelow(p, top)
    ensures DegreeBelow(Add(Raise(p, 1), Once(b)), top + 1)
    ensures top - 1 in p && top > 32 ==> top in Add(Raise(p, 1), Once(b))
    ensures b && top == 32 && p == {} ==> top in Add(Raise(p, 1), Once(b))
  {
  }

  lemma LoneZero()
    ensures Multiple([false]) == {}
  {
    assert [false][..0] == [];
  }

  lemma {:induction false} LeadingZero(q: seq<bool>)
    ensures Multiple([false] + q) == Multiple(q)
    decreases |q|
  {
    hide Add, Raise, Once;
    if q == [] {
      LoneZero();
      assert [false] + q == [false];
    } else {
      assert ([false] + q)[..|q|] == [false] + q[..|q| - 1];
      LeadingZero(q[..|q| - 1]);
    }
  }

  /** No multiple of the generator but zero has a degree below 32. */
  lemma {:induction false} LowMultipleIsZero(q: seq<bool>)
    requires DegreeBelow(Multiple(q), 32)
    ensures Multiple(q) == {}
  {
    if q != [] {
      MultipleBounded(q);
      assert q == [false] + q[1..];
      LeadingZero(q[1..]);
      LowMultipleIsZero(q[1..]);
    }
  }

  lemma {:induction false} MultiplesAdd(q: seq<bool>, s: seq<bool>)
    requires |q| == |s|
    ensures exists u :: Multiple(u) == Add(Multiple(q), Multiple(s))
    decreases |q|
  {
    if q == [] {
      assert Multiple([]) == Add(Multiple(q), Multiple(s));
    } else {
      var n := |q| - 1;
      MultiplesAdd(q[..n], s[..n]);
      var u :| Multiple(u) == Add(Multiple(q[..n]), Multiple(s[..n]));
      RaiseAdd(Multiple(q[..n]), Multiple(s[..n]), 1);
      var v := u + [q[n] != s[n]];
      assert v[..|v| - 1] == u;
      Regroup(Raise(Multiple(q[..n]), 1), Raise(Multiple(s[..n]), 1), q[n], s[n]);
      assert Multiple(v) == Add(Multiple(q), Multiple(s));
    }
  }

  lemma Regroup(p: Poly, r: Poly, b: bool, c: bool)
    ensures Add(Add(p, r), Once(b != c)) == Add(Add(p, Once(b)), Add(r, Once(c)))
  {
  }

  lemma {:induction false} Widen(q: seq<bool>, n: nat) returns (s: seq<bool>)
    requires |q| <= n
    ensures |s| == n && Multiple(s) == Multiple(q)
    decreases n - |q|
  {
    if |q| == n {
      s := q;
    } else {
      LeadingZero(q);
      s := Widen([false] + q, n);
    }
  }

  lemma RemainderIsUnique(p: Poly, r: Poly, s: Poly)
    requires Congruent(p, r) && Congruent(p, s) && DegreeBelow(r, 32) && DegreeBelow(s, 32)
    ensures r == s
  {
    var q :| p == Add(r, Multiple(q));
    var t :| p == Add(s, Multiple(t));
    var n := if |q| < |t| then |t| else |q|;
    var q1 := Widen(q, n);
    var t1 := Widen(t, n);
    MultiplesAdd(q1, t1);
    var u :| Multiple(u) == Add(Multiple(q1), Multiple(t1));
    Transpose(r, Multiple(q), s, Multiple(t));
    LowMultipleIsZero(u);
  }

  lemma Transpose(a: Poly, b: Poly, c: Poly, d: Poly)
    requires Add(a, b) == Add(c, d)
    ensures Add(b, d) == Add(a, c)
    ensures Add(a, c) == {} ==> a == c
  {
  }

  /**
   * The checksum, complemented back, is exactly the remainder the standard asks for: a polynomial of degree below 32
   * is what the register holds if and only if it is congruent to the message times x^32, with the register's starting
   * ones added to the message's first 32 coefficients.
   */
  lemma CrcIsTheRemainder(bytes: seq<byte>, r: Poly)
    requires DegreeBelow(r, 32)
    ensures r == RegisterPoly(Not(Crc.Crc32(bytes)))
       <==> Congruent(Dividend(ONES, MessageBits(bytes)), r)
  {
    var bits := MessageBits(bytes);
    var c := PushBits(ONES, bits);
    assert Not(Not(c)) == c;
    RegisterIsCongruent(ONES, bits);
    assert Congruent(Dividend(ONES, bits), RegisterPoly(c));
    if Congruent(Dividend(ONES, bits), r) {
      RemainderIsUnique(Dividend(ONES, bits), r, RegisterPoly(c));
    }
  }
}
