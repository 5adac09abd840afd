/**
 Decimal text of integers: the `%v` and `%d` verbs of Go's fmt package and
 strconv.ParseInt with base 10 and 64 bits.
 */
module Decimal {
  import opened Wrappers

  const MIN_INT64: int := -0x8000_0000_0000_0000
  const MAX_INT64: int := 0x7FFF_FFFF_FFFF_FFFF

  type int64 = n: int | MIN_INT64 <= n <= MAX_INT64

  predicate IsDigit(c: char) { '0' <= c <= '9' }

  function Digit(d: nat): char
    requires d < 10
  {
    ('0' as int + d) as char
  }

  function FormatNat(n: nat): string {
    if n < 10 then [Digit(n)] else FormatNat(n / 10) + [Digit(n % 10)]
  }

  function Format(n: int): string {
    if n < 0 then "-" + FormatNat(-n) else FormatNat(n)
  }

  // One or more digits, nothing else.
  function ParseNat(s: string): Option<nat> {
    if s == "" || !IsDigit(s[|s| - 1]) then None
    else
      var d := s[|s| - 1] as int - '0' as int;
      if |s| == 1 then Some(d)
      else
        var hi :- ParseNat(s[..|s| - 1]);
        Some(10 * hi + d)
  }

  // An optional sign and digits, of any size.
  function ParseInt(s: string): Option<int> {
    if s == "" then None
    else if s[0] == '-' then
      var n: int :- ParseNat(s[1..]);
      Some(-n)
    else if s[0] == '+' then
      ParseNat(s[1..])
    else
      ParseNat(s)
  }

  // strconv.ParseInt(s, 10, 64)
  function ParseInt64(s: string): Option<int64> {
    var n :- ParseInt(s);
    if MIN_INT64 <= n <= MAX_INT64 then Some(n) else None
  }

  // Decimal text is a JSON-style integer literal: digits, no leading zero.
  lemma {:induction false} FormatNatShape(n: nat)
    ensures FormatNat(n) != "" && (forall c :: c in FormatNat(n) ==> IsDigit(c))
    ensures FormatNat(n)[0] == '0' <==> n == 0
    ensures |FormatNat(n)| == 1 <==> n < 10
  {
    if n >= 10 {
      FormatNatShape(n / 10);
    }
  }

  lemma {:induction false} ParseNatFormat(n: nat)
    ensures ParseNat(FormatNat(n)) == Some(n)
  {
    if n >= 10 {
      ParseNatFormat(n / 10);
      FormatNatShape(n / 10);
      var s := FormatNat(n);
      assert s[..|s| - 1] == FormatNat(n / 10);
    }
  }

  // Reading back what was printed gives the number.
  lemma ParseIntFormat(n: int)
    ensures ParseInt(Format(n)) == Some(n)
  {
    FormatNatShape(if n < 0 then -n else n);
    ParseNatFormat(if n < 0 then -n else n);
    if n < 0 {
      assert Format(n)[1..] == FormatNat(-n);
    } else {
      assert IsDigit(Format(n)[0]);
    }
  }

  lemma ParseInt64Format(n: int64)
    ensures ParseInt64(Format(n)) == Some(n)
  {
    ParseIntFormat(n);
  }

  lemma FormatInjective(m: int, n: int)
    requires Format(m) == Format(n)
    ensures m == n
  {
    ParseIntFormat(m);
    ParseIntFormat(n);
  }

  // Only '-' and digits, so no separator of a file name or path.
  lemma FormatChars(n: int)
    ensures Format(n) != ""
    ensures forall c :: c in Format(n) ==> c == '-' || IsDigit(c)
    ensures '/' !in Format(n) && '.' !in Format(n)
  {
    FormatNatShape(if n < 0 then -n else n);
  }
}
