/**
 JSON objects member by member: how a struct's members are laid out in a
 document and found again by name.
 */
module Members {
  import opened Wrappers
  import opened Decimal
  import opened Utf8
  import opened Base64
  import opened Json

  // The last member called `name`, or else `found`.
  function Last(m: Fields, name: string, found: Option<Value>): Option<Value> {
    if m.NoField? then found
    else Last(m.rest, name, if m.name == name then Some(m.val) else found)
  }

  function Get(m: Fields, name: string): Option<Value> { Last(m, name, None) }

  // The name of a struct's field is ASCII.
  type Name = s: string | Ascii(s)

  lemma NameIsClean(n: Name)
    ensures Sanitize(n) == n
  {
    AsciiIsValid(n);
    SanitizeExactIff(n);
  }

  // Every struct here starts with seven members.
  datatype Seven = Seven(
    n0: Name, v0: Value, n1: Name, v1: Value, n2: Name, v2: Value, n3: Name, v3: Value,
    n4: Name, v4: Value, n5: Name, v5: Value, n6: Name, v6: Value)
  {
    function Then(rest: Fields): Fields {
      Field(n0, v0, Field(n1, v1, Field(n2, v2, Field(n3, v3,
      Field(n4, v4, Field(n5, v5, Field(n6, v6, rest)))))))
    }

    // What reading the members back finds under a name.
    function Lookup(want: string): Option<Value> {
      if want == n0 then Some(CleanValue(v0)) else if want == n1 then Some(CleanValue(v1))
      else if want == n2 then Some(CleanValue(v2)) else if want == n3 then Some(CleanValue(v3))
      else if want == n4 then Some(CleanValue(v4)) else if want == n5 then Some(CleanValue(v5))
      else if want == n6 then Some(CleanValue(v6)) else None
    }

    predicate Without(name: string) {
      name != n0 && name != n1 && name != n2 && name != n3 && name != n4 && name != n5 && name != n6
    }

    predicate Distinct() {
      && n0 != n1 && n0 != n2 && n0 != n3 && n0 != n4 && n0 != n5 && n0 != n6
      && n1 != n2 && n1 != n3 && n1 != n4 && n1 != n5 && n1 != n6
      && n2 != n3 && n2 != n4 && n2 != n5 && n2 != n6
      && n3 != n4 && n3 != n5 && n3 != n6
      && n4 != n5 && n4 != n6 && n5 != n6
    }
  }

  lemma LastStep(name: Name, v: Value, rest: Fields, want: string, found: Option<Value>) returns (next: Option<Value>)
    ensures next == if name == want then Some(CleanValue(v)) else found
    ensures Last(CleanFields(Field(name, v, rest)), want, found) == Last(CleanFields(rest), want, next)
  {
    NameIsClean(name);
    next := if name == want then Some(CleanValue(v)) else found;
  }

  lemma LastSeven(s: Seven, rest: Fields, want: string)
    requires s.Distinct()
    ensures Get(CleanFields(s.Then(rest)), want) == Last(CleanFields(rest), want, s.Lookup(want))
  {
    var r6 := Field(s.n6, s.v6, rest);
    var r5 := Field(s.n5, s.v5, r6);
    var r4 := Field(s.n4, s.v4, r5);
    var r3 := Field(s.n3, s.v3, r4);
    var r2 := Field(s.n2, s.v2, r3);
    var r1 := Field(s.n1, s.v1, r2);
    var f0 := LastStep(s.n0, s.v0, r1, want, None);
    var f1 := LastStep(s.n1, s.v1, r2, want, f0);
    var f2 := LastStep(s.n2, s.v2, r3, want, f1);
    var f3 := LastStep(s.n3, s.v3, r4, want, f2);
    var f4 := LastStep(s.n4, s.v4, r5, want, f3);
    var f5 := LastStep(s.n5, s.v5, r6, want, f4);
    var f6 := LastStep(s.n6, s.v6, rest, want, f5);
  }

  // `json:",omitempty"`
  function Omit(name: Name, s: string, rest: Fields): Fields {
    if s == "" then rest else Field(name, Str(s), rest)
  }

  lemma OmitLast(name: Name, s: string, rest: Fields, want: string, found: Option<Value>)
    ensures Last(CleanFields(Omit(name, s, rest)), want, found) == Last(CleanFields(rest), want,
      if s != "" && name == want then Some(Str(Sanitize(s))) else found)
  {
    NameIsClean(name);
  }

  // ---- Structs of any length ----

  // The names of a struct's fields.
  predicate Table(t: seq<string>) {
    && (forall i :: 0 <= i < |t| ==> Ascii(t[i]))
    && (forall i, j :: 0 <= i < j < |t| ==> t[i] != t[j])
  }

  // A field of a struct as it is written; one that is omitted is not kept.
  datatype Member = Member(name: string, val: Value, keep: bool)

  function Doc(ms: seq<Member>): Fields {
    if ms == [] then NoField
    else if ms[0].keep then Field(ms[0].name, ms[0].val, Doc(ms[1..]))
    else Doc(ms[1..])
  }

  predicate Names(ms: seq<Member>) {
    && (forall i :: 0 <= i < |ms| ==> Ascii(ms[i].name))
    && (forall i, j :: 0 <= i < j < |ms| ==> ms[i].name != ms[j].name)
  }

  // What reading a field back finds.
  function Found(m: Member): Option<Value> { if m.keep then Some(CleanValue(m.val)) else None }

  lemma {:induction false} DocOther(ms: seq<Member>, want: string, found: Option<Value>)
    requires forall i :: 0 <= i < |ms| ==> Ascii(ms[i].name) && ms[i].name != want
    ensures Last(CleanFields(Doc(ms)), want, found) == found
  {
    if ms != [] {
      NameIsClean(ms[0].name);
      DocOther(ms[1..], want, found);
    }
  }

  lemma {:induction false} DocLast(ms: seq<Member>, i: nat)
    requires Names(ms) && i < |ms|
    ensures Last(CleanFields(Doc(ms)), ms[i].name, None) == Found(ms[i])
  {
    NameIsClean(ms[0].name);
    if i == 0 {
      DocOther(ms[1..], ms[0].name, Found(ms[0]));
    } else {
      assert ms[1..][i - 1] == ms[i];
      DocLast(ms[1..], i - 1);
    }
  }

  // Every field is found again under its name.
  lemma DocGet(ms: seq<Member>)
    requires Names(ms)
    ensures forall i :: 0 <= i < |ms| ==> Get(CleanFields(Doc(ms)), ms[i].name) == Found(ms[i])
  {
    forall i | 0 <= i < |ms| ensures Get(CleanFields(Doc(ms)), ms[i].name) == Found(ms[i]) {
      DocLast(ms, i);
    }
  }

  // ---- Decoding a member into a struct field ----
  // A missing member or null leaves the zero value; a wrong kind is an error.

  type uint64 = n: nat | n < 0x1_0000_0000_0000_0000

  function StringOf(v: Option<Value>): Option<string> {
    match v
    case None => Some("")
    case Some(Null) => Some("")
    case Some(Str(s)) => Some(s)
    case _ => None
  }

  function UintOf(v: Option<Value>): Option<uint64> {
    match v
    case None => Some(0)
    case Some(Null) => Some(0)
    case Some(Num(lit)) =>
      var n :- ParseNat(lit);
      if n < 0x1_0000_0000_0000_0000 then Some(n) else None
    case _ => None
  }

  function IntOf(v: Option<Value>): Option<int64> {
    match v
    case None => Some(0)
    case Some(Null) => Some(0)
    case Some(Num(lit)) => ParseInt64(lit)
    case _ => None
  }

  function BoolOf(v: Option<Value>): Option<bool> {
    match v
    case None => Some(false)
    case Some(Null) => Some(false)
    case Some(Bool(b)) => Some(b)
    case _ => None
  }

  // A nested struct; a missing one is all zero.
  function FieldsOf(v: Option<Value>): Option<Fields> {
    match v
    case None => Some(NoField)
    case Some(Null) => Some(NoField)
    case Some(Obj(f)) => Some(f)
    case _ => None
  }

  function BytesOf(v: Option<Value>): Option<Option<Bytes>> {
    match v
    case None => Some(None)
    case Some(Null) => Some(None)
    case Some(Str(s)) =>
      var b :- Decode(s);
      Some(Some(b))
    case _ => None
  }

  // A member that is there is read if and only if it is null or of the right kind.
  lemma KindsIff(v: Value)
    ensures StringOf(Some(v)).Some? <==> v.Null? || v.Str?
    ensures BoolOf(Some(v)).Some? <==> v.Null? || v.Bool?
    ensures FieldsOf(Some(v)).Some? <==> v.Null? || v.Obj?
    ensures BytesOf(Some(v)).Some? <==> v.Null? || (v.Str? && Decode(v.s).Some?)
    ensures IntOf(Some(v)).Some? <==> v.Null? || (v.Num? && ParseInt64(v.lit).Some?)
    ensures UintOf(Some(v)).Some? <==>
              v.Null? || (v.Num? && ParseNat(v.lit).Some? && ParseNat(v.lit).value < 0x1_0000_0000_0000_0000)
  {}

  lemma UintTrip(n: uint64)
    ensures UintOf(Some(CleanValue(Num(IntLiteral(n))))) == Some(n)
  {
    ParseNatFormat(n);
  }

  lemma IntTrip(n: int64)
    ensures IntOf(Some(CleanValue(Num(IntLiteral(n))))) == Some(n)
  {
    ParseInt64Format(n);
  }

  // A nil byte slice is null, any other one its base64 text.
  function BytesJson(v: Option<Bytes>): Value {
    match v
    case None => Null
    case Some(b) => Str(Encode(b))
  }

  lemma BytesTrip(v: Option<Bytes>)
    ensures BytesOf(Some(CleanValue(BytesJson(v)))) == Some(v)
  {
    if v.Some? {
      EncodeIsAscii(v.value);
      AsciiIsValid(Encode(v.value));
      SanitizeExactIff(Encode(v.value));
      DecodeEncode(v.value);
    }
  }

  // A document that is one object reads back as that object.
  lemma ObjectTrip(f: Fields)
    ensures Unmarshal(Marshal(Obj(f))) == Some(Obj(CleanFields(f)))
  {
    UnmarshalMarshal(Obj(f));
  }
}
