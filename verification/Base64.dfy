/** Base64 with padding, section 4 of RFC 4648: how JSON carries byte slices. */
module Base64 {
  import opened Wrappers
  import opened Utf8

  predicate IsBytes(s: string) {
    forall i :: 0 <= i < |s| ==> s[i] as int < 256
  }

  type Bytes = s: string | IsBytes(s)

  function Symbol(i: nat): char
    requires i < 64
  {
    if i < 26 then ('A' as int + i) as char
    else if i < 52 then ('a' as int + (i - 26)) as char
    else if i < 62 then ('0' as int + (i - 52)) as char
    else if i == 62 then '+'
    else '/'
  }

  function Index(c: char): (r: Option<nat>)
    ensures r.Some? ==> r.value < 64
  {
    if 'A' <= c <= 'Z' then Some(c as int - 'A' as int)
    else if 'a' <= c <= 'z' then Some(c as int - 'a' as int + 26)
    else if '0' <= c <= '9' then Some(c as int - '0' as int + 52)
    else if c == '+' then Some(62)
    else if c == '/' then Some(63)
    else None
  }

  lemma IndexSymbol(i: nat)
    requires i < 64
    ensures Index(Symbol(i)) == Some(i)
    ensures Symbol(i) != '=' && Symbol(i) as int < 128
  {}

  // One to three bytes as four symbols; a missing byte pads with '='.
  function Quad(b: Bytes): (q: string)
    requires 1 <= |b| <= 3
    ensures |q| == 4
  {
    var x := b[0] as int;
    var y := if |b| > 1 then b[1] as int else 0;
    var z := if |b| > 2 then b[2] as int else 0;
    [Symbol(x / 4), Symbol(x % 4 * 16 + y / 16),
     if |b| > 1 then Symbol(y % 16 * 4 + z / 64) else '=',
     if |b| > 2 then Symbol(z % 64) else '=']
  }

  function Unquad(q: string): Option<Bytes>
    requires |q| == 4
  {
    var i :- Index(q[0]);
    var j :- Index(q[1]);
    var x := (i * 4 + j / 16) as char;
    if q[2] == '=' then (if q[3] == '=' then Some([x]) else None)
    else
      var k :- Index(q[2]);
      var y := (j % 16 * 16 + k / 4) as char;
      if q[3] == '=' then Some([x, y])
      else
        var l :- Index(q[3]);
        Some([x, y, (k % 4 * 64 + l) as char])
  }

  function Encode(b: Bytes): string {
    if b == "" then ""
    else if |b| <= 3 then Quad(b)
    else Quad(b[..3]) + Encode(b[3..])
  }

  function Decode(s: string): Option<Bytes> {
    if s == "" then Some("")
    else if |s| < 4 then None
    else
      var b :- Unquad(s[..4]);
      if |s| == 4 then Some(b)
      else if |b| < 3 then None
      else
        var rest :- Decode(s[4..]);
        Some(b + rest)
  }

  lemma Sextets(x: nat, y: nat, z: nat)
    requires x < 256 && y < 256 && z < 256
    ensures x / 4 * 4 + (x % 4 * 16 + y / 16) / 16 == x
    ensures (x % 4 * 16 + y / 16) % 16 * 16 + (y % 16 * 4 + z / 64) / 4 == y
    ensures (y % 16 * 4 + z / 64) % 4 * 64 + z % 64 == z
  {}

  lemma UnquadQuad(b: Bytes)
    requires 1 <= |b| <= 3
    ensures Unquad(Quad(b)) == Some(b)
  {
    var x := b[0] as int;
    var y := if |b| > 1 then b[1] as int else 0;
    var z := if |b| > 2 then b[2] as int else 0;
    Sextets(x, y, z);
    Regain(b, x, y, z, x / 4, x % 4 * 16 + y / 16, y % 16 * 4 + z / 64, z % 64);
    QuadSymbols(b, x, y, z);
  }

  lemma QuadSymbols(b: Bytes, x: nat, y: nat, z: nat)
    requires 1 <= |b| <= 3 && b[0] as int == x && (if |b| > 1 then b[1] as int == y else y == 0)
    requires if |b| > 2 then b[2] as int == z else z == 0
    ensures Quad(b) == Symbols(x / 4, x % 4 * 16 + y / 16, y % 16 * 4 + z / 64, z % 64, |b|)
  {}

  lemma Regain(b: Bytes, x: nat, y: nat, z: nat, i: nat, j: nat, k: nat, l: nat)
    requires 1 <= |b| <= 3 && b[0] as int == x && (if |b| > 1 then b[1] as int == y else y == 0)
    requires if |b| > 2 then b[2] as int == z else z == 0
    requires i < 64 && j < 64 && k < 64 && l < 64
    requires i * 4 + j / 16 == x && j % 16 * 16 + k / 4 == y && k % 4 * 64 + l == z
    ensures Unquad(Symbols(i, j, k, l, |b|)) == Some(b)
  {
    UnquadSymbols(i, j, k, l, |b|);
    Bounded(b, x, y, z);
  }

  lemma Bounded(b: Bytes, x: nat, y: nat, z: nat)
    requires 1 <= |b| <= 3 && b[0] as int == x && (if |b| > 1 then b[1] as int == y else y == 0)
    requires if |b| > 2 then b[2] as int == z else z == 0
    ensures b == [x as char, y as char, z as char][..|b|]
  {}

  function Symbols(i: nat, j: nat, k: nat, l: nat, n: nat): (q: string)
    requires i < 64 && j < 64 && k < 64 && l < 64
    ensures |q| == 4
  {
    [Symbol(i), Symbol(j), if n > 1 then Symbol(k) else '=', if n > 2 then Symbol(l) else '=']
  }

  lemma UnquadSymbols(i: nat, j: nat, k: nat, l: nat, n: nat)
    requires i < 64 && j < 64 && k < 64 && l < 64 && 1 <= n <= 3
    ensures Unquad(Symbols(i, j, k, l, n)) ==
            Some([(i * 4 + j / 16) as char, (j % 16 * 16 + k / 4) as char, (k % 4 * 64 + l) as char][..n])
  {
    IndexSymbol(i);
    IndexSymbol(j);
    IndexSymbol(k);
    IndexSymbol(l);
    var b := [(i * 4 + j / 16) as char, (j % 16 * 16 + k / 4) as char, (k % 4 * 64 + l) as char];
    assert b[..1] == [b[0]] && b[..2] == [b[0], b[1]] && b[..3] == b;
  }

  lemma DecodeCons(q: string, t: string, b: string)
    requires |q| == 4 && Unquad(q) == Some(b)
    ensures t == "" ==> Decode(q + t) == Some(b)
    ensures |t| >= 4 && |b| == 3 && Decode(t).Some? ==> Decode(q + t) == Some(b + Decode(t).value)
  {
    assert (q + t)[..4] == q && (q + t)[4..] == t;
  }

  // Every byte string comes back, in all three padding cases.
  lemma {:induction false} DecodeEncode(b: Bytes)
    ensures Decode(Encode(b)) == Some(b)
    ensures b != "" ==> |Encode(b)| >= 4
  {
    if b == "" {
    } else if |b| <= 3 {
      UnquadQuad(b);
      DecodeCons(Quad(b), "", b);
      assert Encode(b) == Quad(b) + "";
    } else {
      UnquadQuad(b[..3]);
      DecodeEncode(b[3..]);
      DecodeCons(Quad(b[..3]), Encode(b[3..]), b[..3]);
      assert b == b[..3] + b[3..];
    }
  }

  // The text is plain ASCII, so a JSON string carries it unchanged.
  lemma {:induction false} EncodeIsAscii(b: Bytes)
    ensures Ascii(Encode(b))
  {
    if |b| > 3 {
      EncodeIsAscii(b[3..]);
    }
  }
}
