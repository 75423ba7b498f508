/** Decimal texts of integers: String(BigInt) and BigInt(String). */
module Decimal {
  import opened Prelude

  predicate IsDigit(c: char) { '0' <= c <= '9' }

  predicate AllDigits(s: string)
  {
    forall i :: 0 <= i < |s| ==> IsDigit(s[i])
  }

  function DigitChar(d: nat): (c: char)
    requires d < 10
    ensures IsDigit(c) && CharValue(c) == d
  {
    ('0' as int + d) as char
  }

  function CharValue(c: char): nat
    requires IsDigit(c)
  {
    c as int - '0' as int
  }

  function Digits(n: nat): string
  {
    if n < 10 then [DigitChar(n)] else Digits(n / 10) + [DigitChar(n % 10)]
  }

  function Value(s: string): nat
    requires AllDigits(s)
  {
    if s == "" then 0 else Value(s[..|s| - 1]) * 10 + CharValue(s[|s| - 1])
  }

  /** (0|[1-9][0-9]*) */
  predicate Canonical(s: string)
  {
    s != "" && AllDigits(s) && (|s| > 1 ==> s[0] != '0')
  }

  /** String(BigInt(n)) */
  function IntText(n: int): string
  {
    if n < 0 then ['-'] + Digits(-n) else Digits(n)
  }

  predicate IsIntText(s: string)
  {
    Canonical(s) || (|s| > 1 && s[0] == '-' && Canonical(s[1..]) && s[1..] != "0")
  }

  function IntValue(s: string): int
    requires IsIntText(s)
  {
    if s[0] == '-' then 0 - Value(s[1..]) else Value(s) as int
  }

  lemma {:induction false} DigitsCanonical(n: nat)
    ensures Canonical(Digits(n)) && Value(Digits(n)) == n
    ensures n > 0 ==> Digits(n)[0] != '0'
  {
    if n >= 10 {
      DigitsCanonical(n / 10);
      assert Digits(n)[..|Digits(n)| - 1] == Digits(n / 10);
    }
  }

  lemma {:induction false} ValuePositive(s: string)
    requires AllDigits(s) && s != "" && s[0] != '0'
    ensures Value(s) > 0
  {
    if |s| > 1 { ValuePositive(s[..|s| - 1]); }
  }

  lemma {:induction false} ValueCanonical(s: string)
    requires Canonical(s)
    ensures Digits(Value(s)) == s
  {
    if |s| > 1 {
      var front := s[..|s| - 1];
      ValueCanonical(front);
      ValuePositive(front);
      assert s == front + [s[|s| - 1]];
      assert Value(s) / 10 == Value(front) && Value(s) % 10 == CharValue(s[|s| - 1]);
    }
  }

  lemma {:induction false} IntTextRoundTrip(n: int)
    ensures IsIntText(IntText(n)) && IntValue(IntText(n)) == n
  {
    DigitsCanonical(if n < 0 then -n else n);
    if n < 0 {
      assert IntText(n)[1..] == Digits(-n);
    }
  }
}
