/**
 * The decimal text JavaScript produces when a counter is appended to a string
 * (`'mongoConnection' + countConnections`, `'dbAdapter_' + countAdapters`),
 * and the fact that makes auto-generated names distinct: different counts give
 * different texts.
 */
module Decimal {

  predicate IsDigit(c: char)
  {
    '0' <= c <= '9'
  }

  predicate AllDigits(s: string)
  {
    forall i :: 0 <= i < |s| ==> IsDigit(s[i])
  }

  function DigitChar(d: nat): (c: char)
    requires d < 10
    ensures IsDigit(c)
  {
    ('0' as int + d) as char
  }

  function DigitValue(c: char): (d: nat)
    requires IsDigit(c)
    ensures d < 10 && DigitChar(d) == c
  {
    c as int - '0' as int
  }

  /** Decimal digits of `n`, most significant first, without leading zeros. */
  function NatToString(n: nat): (s: string)
    ensures |s| > 0 && AllDigits(s)
    ensures s[0] == '0' <==> n == 0
  {
    if n < 10 then [DigitChar(n)] else NatToString(n / 10) + [DigitChar(n % 10)]
  }

  /** Reads a string of digits back as a number. */
  function ParseDigits(s: string): nat
    requires AllDigits(s)
  {
    if s == [] then 0 else ParseDigits(s[..|s| - 1]) * 10 + DigitValue(s[|s| - 1])
  }

  lemma {:induction false} ParseNatToString(n: nat)
    ensures ParseDigits(NatToString(n)) == n
  {
    if n >= 10 {
      var s := NatToString(n);
      assert s[..|s| - 1] == NatToString(n / 10);
      ParseNatToString(n / 10);
    }
  }

  lemma NatToStringInjective(m: nat, n: nat)
    ensures NatToString(m) == NatToString(n) <==> m == n
  {
    if NatToString(m) == NatToString(n) {
      ParseNatToString(m);
      ParseNatToString(n);
    }
  }

  /** A name made of a fixed prefix and a counter value. */
  function AutoName(prefix: string, n: nat): string
  {
    prefix + NatToString(n)
  }

  /** Two counter values give the same auto-generated name only if they are equal. */
  lemma AutoNamesDistinct(prefix: string, m: nat, n: nat)
    ensures AutoName(prefix, m) == AutoName(prefix, n) <==> m == n
  {
    if AutoName(prefix, m) == AutoName(prefix, n) {
      assert NatToString(m) == AutoName(prefix, m)[|prefix|..];
      assert NatToString(n) == AutoName(prefix, n)[|prefix|..];
      NatToStringInjective(m, n);
    }
  }
}
