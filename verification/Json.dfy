/**
 JSON text as encoding/json writes and reads it (RFC 8259).

 `Emit(v, k)` is the text of v followed by k: the encoder appends to a buffer,
 and writing it with the tail as an argument keeps every proof a plain
 structural induction.
 */
module Json {
  import opened Wrappers
  import opened Utf8
  import opened Decimal

  // ---- Numbers: section 6 of RFC 8259 ----

  predicate NumberChar(c: char) {
    IsDigit(c) || c == '-' || c == '+' || c == '.' || c == 'e' || c == 'E'
  }

  function Digits(s: string): (n: nat)
    ensures n <= |s|
  {
    if s != "" && IsDigit(s[0]) then 1 + Digits(s[1..]) else 0
  }

  predicate IsExponent(s: string) {
    s == "" ||
    ((s[0] == 'e' || s[0] == 'E') &&
     var x := if |s| > 1 && (s[1] == '+' || s[1] == '-') then s[2..] else s[1..];
     x != "" && Digits(x) == |x|)
  }

  predicate IsFraction(s: string) {
    if s != "" && s[0] == '.' then
      Digits(s[1..]) > 0 && IsExponent(s[1 + Digits(s[1..])..])
    else IsExponent(s)
  }

  predicate IsNumber(s: string) {
    var u := if s != "" && s[0] == '-' then s[1..] else s;
    && Digits(u) > 0
    && (u[0] == '0' ==> Digits(u) == 1)
    && IsFraction(u[Digits(u)..])
  }

  function Span(s: string): (n: nat)
    ensures n <= |s|
    ensures forall i :: 0 <= i < n ==> NumberChar(s[i])
    ensures n < |s| ==> !NumberChar(s[n])
  {
    if s != "" && NumberChar(s[0]) then 1 + Span(s[1..]) else 0
  }

  // A number literal; the encoder keeps and prints it as text.
  type Number = s: string | IsNumber(s) && Span(s) == |s| witness "0"

  lemma {:induction false} DigitsAll(s: string)
    requires forall c :: c in s ==> IsDigit(c)
    ensures Digits(s) == |s|
  {
    if s != "" {
      DigitsAll(s[1..]);
    }
  }

  lemma {:induction false} SpanAll(s: string)
    requires forall i :: 0 <= i < |s| ==> NumberChar(s[i])
    ensures Span(s) == |s|
  {
    if s != "" {
      SpanAll(s[1..]);
    }
  }

  // Decimal text is a JSON number.
  function IntLiteral(n: int): Number {
    IntLiteralOk(n);
    Format(n)
  }

  lemma IntLiteralOk(n: int)
    ensures IsNumber(Format(n)) && Span(Format(n)) == |Format(n)|
  {
    var s := Format(n);
    var u := FormatNat(if n < 0 then -n else n);
    FormatNatShape(if n < 0 then -n else n);
    DigitsAll(u);
    FormatChars(n);
    SpanAll(s);
    if n < 0 {
      assert s[1..] == u;
    }
    assert u[|u|..] == "";
  }

  // ---- Documents ----

  datatype Value =
    | Null
    | Bool(b: bool)
    | Num(lit: Number)
    | Str(s: string)
    | Arr(items: Values)
    | Obj(fields: Fields)

  datatype Values = NoItem | Item(head: Value, tail: Values)

  datatype Fields = NoField | Field(name: string, val: Value, rest: Fields)

  // ---- Strings: section 7 of RFC 8259 ----

  function Hex(d: nat): char
    requires d < 16
  {
    if d < 10 then ('0' as int + d) as char else ('a' as int + (d - 10)) as char
  }

  function Unhex(c: char): Option<nat> {
    if '0' <= c <= '9' then Some(c as int - '0' as int)
    else if 'a' <= c <= 'f' then Some(c as int - 'a' as int + 10)
    else if 'A' <= c <= 'F' then Some(c as int - 'A' as int + 10)
    else None
  }

  // The letter of a two-character escape.
  function ShortEscape(c: char): Option<char> {
    match c
    case '"' => Some('"')
    case '\\' => Some('\\')
    case '\U{0008}' => Some('b')
    case '\U{000C}' => Some('f')
    case '\n' => Some('n')
    case '\r' => Some('r')
    case '\t' => Some('t')
    case _ => None
  }

  function ShortUnescape(c: char): Option<char> {
    match c
    case '"' => Some('"')
    case '\\' => Some('\\')
    case '/' => Some('/')
    case 'b' => Some('\U{0008}')
    case 'f' => Some('\U{000C}')
    case 'n' => Some('\n')
    case 'r' => Some('\r')
    case 't' => Some('\t')
    case _ => None
  }

  // Control characters and the three HTML-sensitive ones are written as \u00XX.
  predicate NeedsHex(c: char) {
    ShortEscape(c).None? && (c as int < 0x20 || c == '<' || c == '>' || c == '&')
  }

  function EscapeAscii(c: char): string
    requires c as int < 0x80
  {
    if ShortEscape(c).Some? then ['\\', ShortEscape(c).value]
    else if NeedsHex(c) then ['\\', 'u', '0', '0', Hex(c as int / 16), Hex(c as int % 16)]
    else [c]
  }

  // U+2028 and U+2029 break JavaScript, so they are escaped as well.
  predicate IsSeparator(s: string) {
    |s| >= 3 && In(s[0], 0xE2, 0xE2) && In(s[1], 0x80, 0x80) && In(s[2], 0xA8, 0xA9)
  }

  // How the front of s is written, and how many bytes of s that covers.
  function EscapeFront(s: string): string
    requires s != ""
  {
    if s[0] as int < 0x80 then EscapeAscii(s[0])
    else if RuneLen(s) == 0 then "\\ufffd"
    else if IsSeparator(s) then ['\\', 'u', '2', '0', '2', Hex(s[2] as int - 0xA0)]
    else s[..RuneLen(s)]
  }

  function FrontLen(s: string): (n: nat)
    requires s != ""
    ensures 1 <= n <= |s|
  {
    if RuneLen(s) == 0 then 1 else RuneLen(s)
  }

  function EmitString(s: string, k: string): string {
    if s == "" then "\"" + k
    else EscapeFront(s) + EmitString(s[FrontLen(s)..], k)
  }

  function HexQuad(s: string): Option<nat> {
    if |s| < 4 then None
    else
      var a :- Unhex(s[0]);
      var b :- Unhex(s[1]);
      var c :- Unhex(s[2]);
      var d :- Unhex(s[3]);
      Some(a * 4096 + b * 256 + c * 16 + d)
  }

  lemma HexQuadBound(s: string)
    ensures HexQuad(s).Some? ==> HexQuad(s).value < 0x10000
  {}

  // After "\u": the bytes written and the input consumed. A high surrogate
  // takes its low partner with it; a lone surrogate becomes U+FFFD.
  function UnescapeHex(s: string): Option<(string, nat)> {
    HexQuadBound(s);
    var r :- HexQuad(s);
    if 0xD800 <= r <= 0xDFFF then
      if r < 0xDC00 && |s| >= 6 && s[4] == '\\' && s[5] == 'u' && HexQuad(s[6..]).Some?
         && 0xDC00 <= HexQuad(s[6..]).value <= 0xDFFF then
        Some((EncodeRune(0x10000 + (r - 0xD800) * 0x400 + (HexQuad(s[6..]).value - 0xDC00)), 10))
      else Some((REPLACEMENT, 4))
    else Some((EncodeRune(r), 4))
  }

  lemma UnescapeHexRune(s: string)
    ensures UnescapeHex(s).Some? ==>
      && 4 <= UnescapeHex(s).value.1 <= |s|
      && RuneLen(UnescapeHex(s).value.0) == |UnescapeHex(s).value.0| > 0
  {
    HexQuadBound(s);
    if HexQuad(s).Some? && !(0xD800 <= HexQuad(s).value <= 0xDFFF) {
      EncodeRuneValid(HexQuad(s).value);
    } else if HexQuad(s).Some? && |s| >= 6 && HexQuad(s[6..]).Some? {
      var hi, lo := HexQuad(s).value - 0xD800, HexQuad(s[6..]).value - 0xDC00;
      if hi < 0x400 && 0 <= lo < 0x400 {
        EncodeRuneValid(0x10000 + hi * 0x400 + lo);
      }
    }
  }

  // The next piece of a string body: one code point and the input consumed.
  function UnescapeFront(s: string): (r: Option<(string, nat)>)
    requires s != ""
    ensures r.Some? ==> 1 <= r.value.1 <= |s| && RuneLen(r.value.0) == |r.value.0| > 0
  {
    UnescapeHexRune(if |s| < 2 then "" else s[2..]);
    if s[0] == '\\' then
      if |s| < 2 then None
      else if s[1] == 'u' then
        var p :- UnescapeHex(s[2..]);
        Some((p.0, p.1 + 2))
      else
        var c :- ShortUnescape(s[1]);
        Some(([c], 2))
    else if s[0] as int < 0x20 then None
    else if RuneLen(s) == 0 then Some((REPLACEMENT, 1))
    else Some((s[..RuneLen(s)], RuneLen(s)))
  }

  // The body of a string literal up to its closing quote.
  function ParseString(s: string): (r: Option<(string, string)>)
    ensures r.Some? ==> |r.value.1| < |s| && Valid(r.value.0)
  {
    if s == "" then None
    else if s[0] == '"' then Some(("", s[1..]))
    else
      var p :- UnescapeFront(s);
      var q :- ParseString(s[p.1..]);
      ValidCons(p.0, q.0);
      Some((p.0 + q.0, q.1))
  }

  lemma HexInverse(d: nat)
    requires d < 16
    ensures Unhex(Hex(d)) == Some(d)
  {}

  lemma UnescapeAscii(c: char, t: string)
    requires c as int < 0x80
    ensures EscapeAscii(c)[0] != '"'
    ensures UnescapeFront(EscapeAscii(c) + t) == Some(([c], |EscapeAscii(c)|))
  {
    var s := EscapeAscii(c) + t;
    if ShortEscape(c).None? && NeedsHex(c) {
      HexInverse(c as int / 16);
      HexInverse(c as int % 16);
      assert s[2..][..4] == ['0', '0', Hex(c as int / 16), Hex(c as int % 16)];
      assert HexQuad(s[2..]) == Some(c as int);
    }
  }

  lemma UnescapeSeparator(c: char, t: string)
    requires In(c, 0xA8, 0xA9)
    ensures UnescapeFront(['\\', 'u', '2', '0', '2', Hex(c as int - 0xA0)] + t)
         == Some((['\U{00E2}', '\U{0080}', c], 6))
  {
    var s := ['\\', 'u', '2', '0', '2', Hex(c as int - 0xA0)] + t;
    HexInverse(c as int - 0xA0);
    assert s[2..][..4] == ['2', '0', '2', Hex(c as int - 0xA0)];
    assert HexQuad(s[2..]) == Some(0x2028 + (c as int - 0xA8));
  }

  lemma UnescapeReplacement(t: string)
    ensures UnescapeFront("\\ufffd" + t) == Some((REPLACEMENT, 6))
  {
    var s := "\\ufffd" + t;
    assert s[2..][..4] == "fffd";
    assert HexQuad(s[2..]) == Some(0xFFFD);
  }

  // Reading back what was written for the front of s.
  lemma UnescapeEscape(s: string, t: string)
    requires s != ""
    ensures EscapeFront(s) != "" && EscapeFront(s)[0] != '"'
    ensures UnescapeFront(EscapeFront(s) + t)
         == Some((if RuneLen(s) == 0 then REPLACEMENT else s[..RuneLen(s)], |EscapeFront(s)|))
  {
    if s[0] as int < 0x80 {
      UnescapeAscii(s[0], t);
      assert s[..1] == [s[0]];
    } else if RuneLen(s) == 0 {
      UnescapeReplacement(t);
    } else if IsSeparator(s) {
      UnescapeSeparator(s[2], t);
      assert s[..3] == ['\U{00E2}', '\U{0080}', s[2]];
    } else {
      RuneLenPrefix(s, t);
      assert (s[..RuneLen(s)] + t)[..RuneLen(s)] == s[..RuneLen(s)];
    }
  }

  // A string literal reads back as the string with invalid bytes replaced.
  lemma {:induction false} ParseEmitString(s: string, k: string)
    ensures ParseString(EmitString(s, k)) == Some((Sanitize(s), k))
  {
    if s == "" {
      assert ("\"" + k)[1..] == k;
    } else {
      var t := EmitString(s[FrontLen(s)..], k);
      ParseEmitString(s[FrontLen(s)..], k);
      UnescapeEscape(s, t);
      assert (EscapeFront(s) + t)[|EscapeFront(s)|..] == t;
    }
  }

  // ---- Values ----

  predicate IsSpace(c: char) { c == ' ' || c == '\t' || c == '\r' || c == '\n' }

  function SkipSpace(s: string): (t: string)
    ensures |t| <= |s|
  {
    if s != "" && IsSpace(s[0]) then SkipSpace(s[1..]) else s
  }

  function Emit(v: Value, k: string): string
    decreases v, 0
  {
    match v
    case Null => "null" + k
    case Bool(b) => (if b then "true" else "false") + k
    case Num(lit) => lit + k
    case Str(s) => "\"" + EmitString(s, k)
    case Arr(items) => if items.NoItem? then "[]" + k else "[" + Emit(items.head, EmitItems(items.tail, k))
    case Obj(fields) => if fields.NoField? then "{}" + k else "{" + EmitField(fields, k)
  }

  function EmitItems(items: Values, k: string): string
    decreases items, 0
  {
    match items
    case NoItem => "]" + k
    case Item(v, rest) => "," + Emit(v, EmitItems(rest, k))
  }

  function EmitField(fields: Fields, k: string): string
    requires fields.Field?
    decreases fields, 0
  {
    "\"" + EmitString(fields.name, ":" + Emit(fields.val, EmitRest(fields.rest, k)))
  }

  function EmitRest(fields: Fields, k: string): string
    decreases fields, 1
  {
    if fields.NoField? then "}" + k else "," + EmitField(fields, k)
  }

  // The document json.Marshal produces.
  function Marshal(v: Value): string { Emit(v, "") }

  function Literal(s: string, word: string, v: Value): Option<(Value, string)> {
    if |word| <= |s| && s[..|word|] == word then Some((v, s[|word|..])) else None
  }

  // A value at the front of s, after white space, and what follows it.
  function Parse(s: string): (r: Option<(Value, string)>)
    ensures r.Some? ==> |r.value.1| < |s|
    decreases |s|, 1
  {
    var t := SkipSpace(s);
    if t == "" then None
    else if t[0] == 'n' then Literal(t, "null", Null)
    else if t[0] == 't' then Literal(t, "true", Bool(true))
    else if t[0] == 'f' then Literal(t, "false", Bool(false))
    else if t[0] == '"' then
      var p :- ParseString(t[1..]);
      Some((Str(p.0), p.1))
    else if t[0] == '[' then
      var u := SkipSpace(t[1..]);
      if u != "" && u[0] == ']' then Some((Arr(NoItem), u[1..]))
      else
        var p :- Parse(u);
        var q :- ParseItems(p.1);
        Some((Arr(Item(p.0, q.0)), q.1))
    else if t[0] == '{' then
      var u := SkipSpace(t[1..]);
      if u != "" && u[0] == '}' then Some((Obj(NoField), u[1..]))
      else
        var p :- ParseField(u);
        Some((Obj(p.0), p.1))
    else
      var n := Span(t);
      SpanAll(t[..n]);
      if IsNumber(t[..n]) then Some((Num(t[..n]), t[n..])) else None
  }

  // After an element: the rest of an array.
  function ParseItems(s: string): (r: Option<(Values, string)>)
    ensures r.Some? ==> |r.value.1| < |s|
    decreases |s|, 0
  {
    var t := SkipSpace(s);
    if t == "" then None
    else if t[0] == ']' then Some((NoItem, t[1..]))
    else if t[0] == ',' then
      var p :- Parse(t[1..]);
      var q :- ParseItems(p.1);
      Some((Item(p.0, q.0), q.1))
    else None
  }

  // A member and the rest of its object.
  function ParseField(s: string): (r: Option<(Fields, string)>)
    ensures r.Some? ==> |r.value.1| < |s|
    decreases |s|, 0
  {
    var t := SkipSpace(s);
    if t == "" || t[0] != '"' then None
    else
      var n :- ParseString(t[1..]);
      var u := SkipSpace(n.1);
      if u == "" || u[0] != ':' then None
      else
        var p :- Parse(u[1..]);
        var q :- ParseRest(p.1);
        Some((Field(n.0, p.0, q.0), q.1))
  }

  function ParseRest(s: string): (r: Option<(Fields, string)>)
    ensures r.Some? ==> |r.value.1| < |s|
    decreases |s|, 0
  {
    var t := SkipSpace(s);
    if t == "" then None
    else if t[0] == '}' then Some((NoField, t[1..]))
    else if t[0] == ',' then ParseField(t[1..])
    else None
  }

  // A whole document: one value and nothing but white space after it.
  function Unmarshal(s: string): Option<Value> {
    var p :- Parse(s);
    if SkipSpace(p.1) == "" then Some(p.0) else None
  }

  // ---- The encoder's output reads back ----

  // The same document with every string and every name sanitised.
  function CleanValue(v: Value): Value {
    match v
    case Str(s) => Str(Sanitize(s))
    case Arr(items) => Arr(CleanItems(items))
    case Obj(fields) => Obj(CleanFields(fields))
    case _ => v
  }

  function CleanItems(items: Values): Values {
    if items.NoItem? then NoItem else Item(CleanValue(items.head), CleanItems(items.tail))
  }

  function CleanFields(fields: Fields): Fields {
    if fields.NoField? then NoField
    else Field(Sanitize(fields.name), CleanValue(fields.val), CleanFields(fields.rest))
  }

  // What may follow a value: the end, or a character no number contains.
  predicate Delimited(k: string) {
    k == "" || !NumberChar(k[0])
  }

  lemma {:induction false} SpanAppend(lit: string, k: string)
    requires Span(lit) == |lit| && Delimited(k)
    ensures Span(lit + k) == |lit|
  {
    if lit == "" {
      assert lit + k == k;
    } else {
      SpanAppend(lit[1..], k);
      assert (lit + k)[1..] == lit[1..] + k;
    }
  }

  lemma ParseNumber(lit: Number, k: string)
    requires Delimited(k)
    ensures Parse(lit + k) == Some((Num(lit), k))
  {
    SpanAppend(lit, k);
    var s := lit + k;
    assert lit[0] == '-' || IsDigit(lit[0]);
    assert s[0] == lit[0] && SkipSpace(s) == s;
    assert s[..|lit|] == lit && s[|lit|..] == k;
  }

  lemma ParseWord(v: Value, k: string)
    requires v.Null? || v.Bool?
    ensures Parse(Emit(v, k)) == Some((v, k))
  {
    var w := if v.Null? then "null" else if v.b then "true" else "false";
    var s := Emit(v, k);
    assert s == w + k && s[..|w|] == w && s[|w|..] == k;
    assert s[0] == w[0] && SkipSpace(s) == s;
  }

  // Text starts with no white space and no closing bracket.
  lemma EmitStart(v: Value, k: string)
    ensures Emit(v, k) != "" && SkipSpace(Emit(v, k)) == Emit(v, k)
    ensures Emit(v, k)[0] != ']'
  {
    if v.Num? {
      assert v.lit[0] == '-' || IsDigit(v.lit[0]);
    }
  }

  lemma {:induction false} ParseEmit(v: Value, k: string)
    requires Delimited(k)
    ensures Parse(Emit(v, k)) == Some((CleanValue(v), k))
    decreases v, 1
  {
    match v
    case Num(lit) => ParseNumber(lit, k);
    case Str(t) => ParseEmitStr(t, k);
    case Arr(items) => ParseEmitArr(items, k);
    case Obj(fields) => ParseEmitObj(fields, k);
    case _ => ParseWord(v, k);
  }

  lemma ParseEmitStr(t: string, k: string)
    ensures Parse(Emit(Str(t), k)) == Some((Str(Sanitize(t)), k))
  {
    var s := Emit(Str(t), k);
    ParseEmitString(t, k);
    assert SkipSpace(s) == s && s[1..] == EmitString(t, k);
  }

  lemma {:induction false} ParseEmitArr(items: Values, k: string)
    ensures Parse(Emit(Arr(items), k)) == Some((Arr(CleanItems(items)), k))
    decreases items, 2
  {
    var s := Emit(Arr(items), k);
    assert SkipSpace(s) == s;
    if items.NoItem? {
      assert s[1..] == "]" + k && s[1..][1..] == k;
    } else {
      var u := EmitItems(items.tail, k);
      ParseEmitItems(items.tail, k);
      ParseEmit(items.head, u);
      EmitStart(items.head, u);
      assert s[1..] == Emit(items.head, u);
    }
  }

  lemma ParseObjectAt(s: string, u: string)
    requires s != "" && s[0] == '{' && SkipSpace(s) == s && SkipSpace(s[1..]) == u && |u| < |s|
    requires u != "" && u[0] == '"' && ParseField(u).Some?
    ensures Parse(s) == Some((Obj(ParseField(u).value.0), ParseField(u).value.1))
  {}

  lemma ParseBrace(u: string)
    requires u != "" && u[0] == '"' && ParseField(u).Some?
    ensures Parse("{" + u) == Some((Obj(ParseField(u).value.0), ParseField(u).value.1))
  {
    var s := "{" + u;
    assert SkipSpace(s) == s && s[1..] == u && SkipSpace(u) == u;
    ParseObjectAt(s, u);
  }

  lemma {:induction false} ParseEmitObj(fields: Fields, k: string)
    ensures Parse(Emit(Obj(fields), k)) == Some((Obj(CleanFields(fields)), k))
    decreases fields, 2
  {
    if fields.NoField? {
      var s := "{}" + k;
      assert SkipSpace(s) == s;
      assert s[1..] == "}" + k && s[1..][1..] == k;
    } else {
      ParseEmitField(fields, k);
      ParseBrace(EmitField(fields, k));
    }
  }

  lemma {:induction false} ParseEmitItems(items: Values, k: string)
    ensures Delimited(EmitItems(items, k))
    ensures ParseItems(EmitItems(items, k)) == Some((CleanItems(items), k))
    decreases items
  {
    var s := EmitItems(items, k);
    assert SkipSpace(s) == s;
    if items.NoItem? {
      assert s[1..] == k;
    } else {
      ParseEmitItems(items.tail, k);
      ParseEmit(items.head, EmitItems(items.tail, k));
      assert s[1..] == Emit(items.head, EmitItems(items.tail, k));
    }
  }

  lemma {:induction false} ParseEmitField(fields: Fields, k: string)
    requires fields.Field?
    ensures ParseField(EmitField(fields, k)) == Some((CleanFields(fields), k))
    decreases fields, 0
  {
    var t := EmitRest(fields.rest, k);
    var c := ":" + Emit(fields.val, t);
    ParseEmitRest(fields.rest, k);
    ParseEmit(fields.val, t);
    ParseEmitString(fields.name, c);
    var s := EmitField(fields, k);
    assert SkipSpace(s) == s && SkipSpace(c) == c;
    assert s[1..] == EmitString(fields.name, c);
    assert c[1..] == Emit(fields.val, t);
  }

  lemma {:induction false} ParseEmitRest(fields: Fields, k: string)
    ensures Delimited(EmitRest(fields, k))
    ensures ParseRest(EmitRest(fields, k)) == Some((CleanFields(fields), k))
    decreases fields, 1
  {
    var s := EmitRest(fields, k);
    assert SkipSpace(s) == s;
    if fields.NoField? {
      assert s[1..] == k;
    } else {
      ParseEmitField(fields, k);
      assert s[1..] == EmitField(fields, k);
    }
  }

  // Reading a written document gives it back, invalid UTF-8 replaced.
  lemma UnmarshalMarshal(v: Value)
    ensures Unmarshal(Marshal(v)) == Some(CleanValue(v))
  {
    ParseEmit(v, "");
  }
}
