/** Decimal text. */
module Numbers {
  predicate IsDigit(c: char) { '0' <= c <= '9' }

  predicate AllDigits(s: string) { forall i :: 0 <= i < |s| ==> IsDigit(s[i]) }

  function DigitChar(d: nat): (c: char)
    requires d < 10
    ensures IsDigit(c) && DigitValue(c) == d
  {
    '0' + d as char
  }

  function DigitValue(c: char): (d: nat)
    requires IsDigit(c)
    ensures d < 10
  {
    (c - '0') as int
  }

  function Digits(n: nat): (s: string)
    ensures s != "" && AllDigits(s)
  {
    if n < 10 then [DigitChar(n)] else Digits(n / 10) + [DigitChar(n % 10)]
  }

  function Value(s: string): nat
    requires AllDigits(s)
  {
    if s == "" then 0 else 10 * Value(s[..|s| - 1]) + DigitValue(s[|s| - 1])
  }

  lemma {:induction false} ValueOfDigits(n: nat)
    ensures Value(Digits(n)) == n
  {
    var s := Digits(n);
    if n >= 10 {
      ValueOfDigits(n / 10);
      assert s[..|s| - 1] == Digits(n / 10);
    } else {
      assert s[..0] == "";
    }
  }

  /** The decimal text of an integer. */
  function Text(n: int): string { if n < 0 then "-" + Digits(-n) else Digits(n) }

  /** Exactly negative numbers have a sign, and only zero starts with a zero. */
  lemma {:induction false} TextIsCanonical(n: int)
    ensures Text(n)[0] == '-' <==> n < 0
    ensures Text(n)[0] == '0' <==> n == 0
    decreases if n < 0 then 1 - n else n
  {
    if n < 0 {
      assert Text(n) == "-" + Digits(-n);
    } else if n >= 10 {
      TextIsCanonical(n / 10);
      assert Text(n)[0] == Digits(n / 10)[0];
    }
  }

  /** The digits a string starts with. */
  function Leading(s: string): (d: string)
    ensures d <= s && AllDigits(d)
  {
    if s != "" && IsDigit(s[0]) then [s[0]] + Leading(s[1..]) else ""
  }

  lemma {:induction false} LeadingOfDigits(s: string)
    requires AllDigits(s)
    ensures Leading(s) == s
  {
    if s != "" {
      LeadingOfDigits(s[1..]);
      assert s == [s[0]] + s[1..];
    }
  }
}
