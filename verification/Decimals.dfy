/** Numbers written in decimal digits. */
module Decimals {
  function Pow10(n: nat): (r: nat)
    ensures r > 0
  {
    if n == 0 then 1 else 10 * Pow10(n - 1)
  }

  predicate IsDecimal(c: char) { '0' <= c <= '9' }

  predicate AllDecimal(s: string) {
    forall i :: 0 <= i < |s| ==> IsDecimal(s[i])
  }

  function DecimalDigit(n: nat): (c: char)
    requires n < 10
    ensures IsDecimal(c)
  {
    ('0' as int + n) as char
  }

  function Decimal(n: nat): (s: string)
    ensures s != [] && AllDecimal(s)
  {
    if n < 10 then [DecimalDigit(n)] else Decimal(n / 10) + [DecimalDigit(n % 10)]
  }

  /** What a decimal string says. */
  function Value(s: string): nat
    requires AllDecimal(s)
  {
    if s == [] then 0 else 10 * Value(s[..|s| - 1]) + (s[|s| - 1] as int - '0' as int)
  }

  lemma {:induction false} DecimalSays(n: nat, width: nat)
    requires n < Pow10(width)
    ensures Value(Decimal(n)) == n && (width > 0 ==> |Decimal(n)| <= width)
    decreases n
  {
    if n >= 10 {
      DecimalSays(n / 10, width - 1);
      assert Decimal(n)[..|Decimal(n)| - 1] == Decimal(n / 10);
    }
  }

  lemma {:induction false} DecimalValue(n: nat)
    ensures Value(Decimal(n)) == n
  {
    if n >= 10 {
      DecimalValue(n / 10);
      assert Decimal(n)[..|Decimal(n)| - 1] == Decimal(n / 10);
    }
  }

  predicate NoDigitFirst(s: string) { s == [] || !IsDecimal(s[0]) }

  /** What is written determines the number and where it ends. */
  lemma DecimalEnds(m: nat, n: nat, s: string, t: string)
    requires Decimal(m) + s == Decimal(n) + t && NoDigitFirst(s) && NoDigitFirst(t)
    ensures m == n && s == t
  {
    SameRun(Decimal(m), Decimal(n), s, t);
    DecimalValue(m);
    DecimalValue(n);
    assert s == (Decimal(m) + s)[|Decimal(m)|..];
    assert t == (Decimal(n) + t)[|Decimal(n)|..];
  }

  /** How many digits a string starts with. */
  function Leading(s: string): nat {
    if s != [] && IsDecimal(s[0]) then 1 + Leading(s[1..]) else 0
  }

  lemma {:induction false} LeadingDigits(x: string, s: string)
    requires AllDecimal(x) && NoDigitFirst(s)
    ensures Leading(x + s) == |x|
  {
    if x == [] {
      assert x + s == s;
    } else {
      LeadingDigits(x[1..], s);
      assert (x + s)[1..] == x[1..] + s;
    }
  }

  lemma SameRun(x: string, y: string, s: string, t: string)
    requires x + s == y + t && AllDecimal(x) && AllDecimal(y) && NoDigitFirst(s) && NoDigitFirst(t)
    ensures x == y
  {
    LeadingDigits(x, s);
    LeadingDigits(y, t);
    assert x == (x + s)[..|x|] && y == (y + t)[..|y|];
  }
}
