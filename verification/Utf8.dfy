/**
 UTF-8 as encoding/json meets it. A Go string is a list of bytes; here it is a
 `string` whose characters stand for byte values.
 */
module Utf8 {
  const REPLACEMENT: string := "\U{00EF}\U{00BF}\U{00BD}"

  predicate In(c: char, lo: int, hi: int) { lo <= c as int <= hi }

  // The length of the well-formed sequence s starts with, or 0 if there is none.
  function RuneLen(s: string): (n: nat)
    ensures n <= |s| && n <= 4
  {
    if s == "" then 0
    else if In(s[0], 0, 0x7F) then 1
    else if |s| >= 2 && In(s[0], 0xC2, 0xDF) && In(s[1], 0x80, 0xBF) then 2
    else if |s| >= 3 && In(s[2], 0x80, 0xBF)
            && ( (In(s[0], 0xE0, 0xE0) && In(s[1], 0xA0, 0xBF))
              || (In(s[0], 0xE1, 0xEC) && In(s[1], 0x80, 0xBF))
              || (In(s[0], 0xED, 0xED) && In(s[1], 0x80, 0x9F))
              || (In(s[0], 0xEE, 0xEF) && In(s[1], 0x80, 0xBF))) then 3
    else if |s| >= 4 && In(s[2], 0x80, 0xBF) && In(s[3], 0x80, 0xBF)
            && ( (In(s[0], 0xF0, 0xF0) && In(s[1], 0x90, 0xBF))
              || (In(s[0], 0xF1, 0xF3) && In(s[1], 0x80, 0xBF))
              || (In(s[0], 0xF4, 0xF4) && In(s[1], 0x80, 0x8F))) then 4
    else 0
  }

  predicate Valid(s: string) {
    s == "" || (RuneLen(s) > 0 && Valid(s[RuneLen(s)..]))
  }

  // Every byte that starts no well-formed sequence becomes U+FFFD.
  function Sanitize(s: string): string {
    if s == "" then ""
    else if RuneLen(s) == 0 then REPLACEMENT + Sanitize(s[1..])
    else s[..RuneLen(s)] + Sanitize(s[RuneLen(s)..])
  }

  // The encoding of a code point.
  function EncodeRune(r: nat): string
    requires r <= 0x10FFFF
  {
    if r < 0x80 then [r as char]
    else if r < 0x800 then [(0xC0 + r / 64) as char, (0x80 + r % 64) as char]
    else if r < 0x10000 then
      [(0xE0 + r / 4096) as char, (0x80 + r / 64 % 64) as char, (0x80 + r % 64) as char]
    else
      [(0xF0 + r / 262144) as char, (0x80 + r / 4096 % 64) as char,
       (0x80 + r / 64 % 64) as char, (0x80 + r % 64) as char]
  }

  // Well-formedness is decided by the sequence itself, not by what follows it.
  lemma RuneLenPrefix(s: string, t: string)
    requires RuneLen(s) > 0
    ensures RuneLen(s[..RuneLen(s)] + t) == RuneLen(s)
  {}

  lemma {:induction false} SanitizeGrows(s: string)
    ensures |Sanitize(s)| >= |s|
    ensures |Sanitize(s)| == |s| <==> Valid(s)
    ensures Valid(s) ==> Sanitize(s) == s
  {
    if s != "" {
      SanitizeGrows(s[if RuneLen(s) == 0 then 1 else RuneLen(s)..]);
    }
  }

  // A string survives sanitising exactly when it is valid UTF-8.
  lemma SanitizeExactIff(s: string)
    ensures Sanitize(s) == s <==> Valid(s)
  {
    SanitizeGrows(s);
  }

  lemma {:induction false} SanitizeIdempotent(s: string)
    ensures Valid(Sanitize(s))
  {
    if s != "" {
      var n := RuneLen(s);
      var head := if n == 0 then REPLACEMENT else s[..n];
      SanitizeIdempotent(s[if n == 0 then 1 else n..]);
      assert RuneLen(head) == |head|;
      ValidCons(head, Sanitize(s[if n == 0 then 1 else n..]));
    }
  }

  predicate Ascii(s: string) {
    forall i :: 0 <= i < |s| ==> In(s[i], 0, 0x7F)
  }

  lemma {:induction false} AsciiIsValid(s: string)
    requires Ascii(s)
    ensures Valid(s)
  {
    if s != "" {
      AsciiIsValid(s[1..]);
    }
  }

  // A code point that is no surrogate is encoded as one well-formed sequence.
  lemma EncodeRuneValid(r: nat)
    requires r <= 0x10FFFF && !(0xD800 <= r <= 0xDFFF)
    ensures RuneLen(EncodeRune(r)) == |EncodeRune(r)|
  {
    if 0x800 <= r < 0x10000 {
      assert r / 4096 == r / 64 / 64;
    }
  }

  // Well-formed sequences in front of valid text make valid text.
  lemma ValidCons(p: string, s: string)
    requires RuneLen(p) == |p| > 0 && Valid(s)
    ensures Valid(p + s)
  {
    RuneLenPrefix(p, s);
    assert p[..|p|] == p;
    assert (p + s)[|p|..] == s;
  }
}
