/** The records a snapshot holds and the JSON documents that carry them. */
module Records {
  import opened Wrappers
  import opened Utf8
  import opened Base64
  import opened Json
  import opened Members
  import opened Slices
  import Queries

  // consulapi.KVPair; a nil Value differs from an empty one.
  datatype KVPair = KVPair(
    key: string, createIndex: uint64, modifyIndex: uint64, lockIndex: uint64, flags: uint64,
    value: Option<Bytes>, session: string, namespace: string, partition: string)

  type PreparedQuery = Queries.PreparedQuery

  // ---- consulapi.KVPair ----

  // The member names of a struct that ends in two optional members.
  datatype KVNames = KVNames(
    key: Name, createIndex: Name, modifyIndex: Name, lockIndex: Name, flags: Name,
    value: Name, session: Name, namespace: Name, partition: Name)
  {
    function Members(kv: KVPair): Seven {
      Seven(key, Str(kv.key), createIndex, Num(IntLiteral(kv.createIndex)),
            modifyIndex, Num(IntLiteral(kv.modifyIndex)), lockIndex, Num(IntLiteral(kv.lockIndex)),
            flags, Num(IntLiteral(kv.flags)), value, BytesJson(kv.value), session, Str(kv.session))
    }

    function Document(kv: KVPair): Fields {
      Members(kv).Then(Omit(namespace, kv.namespace, Omit(partition, kv.partition, NoField)))
    }

    predicate Distinct() {
      && Members(ZERO_KV).Distinct()
      && Members(ZERO_KV).Without(namespace) && Members(ZERO_KV).Without(partition)
      && namespace != partition
    }

    function Decode(m: Fields): Option<KVPair> {
      var k :- StringOf(Get(m, key));
      var ci :- UintOf(Get(m, createIndex));
      var mi :- UintOf(Get(m, modifyIndex));
      var li :- UintOf(Get(m, lockIndex));
      var f :- UintOf(Get(m, flags));
      var v :- BytesOf(Get(m, value));
      var s :- StringOf(Get(m, session));
      var n :- StringOf(Get(m, namespace));
      var p :- StringOf(Get(m, partition));
      Some(KVPair(k, ci, mi, li, f, v, s, n, p))
    }
  }

  const ZERO_KV := KVPair("", 0, 0, 0, 0, None, "", "", "")

  const KV_NAMES := KVNames(
    "Key", "CreateIndex", "ModifyIndex", "LockIndex", "Flags",
    "Value", "Session", "Namespace", "Partition")

  function KVJson(kv: KVPair): Value { Obj(KV_NAMES.Document(kv)) }

  function KVFromJson(v: Value): Option<KVPair> {
    if v.Obj? then KV_NAMES.Decode(v.fields) else None
  }

  // What a record looks like after a trip through JSON.
  function CleanKV(kv: KVPair): KVPair {
    kv.(key := Sanitize(kv.key), session := Sanitize(kv.session),
        namespace := Sanitize(kv.namespace), partition := Sanitize(kv.partition))
  }

  predicate ValidKV(kv: KVPair) {
    Valid(kv.key) && Valid(kv.session) && Valid(kv.namespace) && Valid(kv.partition)
  }

  lemma KVNamesDistinct()
    ensures KV_NAMES.Distinct()
  {
    var n := KV_NAMES;
    assert |n.key| == 3 && |n.createIndex| == 11 && |n.modifyIndex| == 11 && |n.lockIndex| == 9 && |n.flags| == 5;
    assert |n.value| == 5 && |n.session| == 7 && |n.namespace| == 9 && |n.partition| == 9;
    assert n.createIndex[0] == 'C' && n.modifyIndex[0] == 'M' && n.flags[0] == 'F' && n.value[0] == 'V';
    assert n.lockIndex[0] == 'L' && n.namespace[0] == 'N' && n.partition[0] == 'P';
  }

  // What is found under a name when a record is read back.
  lemma KVLookup(t: KVNames, kv: KVPair, want: string)
    requires t.Distinct()
    ensures Get(CleanFields(t.Document(kv)), want) == (
      if want == t.partition && kv.partition != "" then Some(Str(Sanitize(kv.partition)))
      else if want == t.namespace && kv.namespace != "" then Some(Str(Sanitize(kv.namespace)))
      else t.Members(kv).Lookup(want))
  {
    var s := t.Members(kv);
    var last := Omit(t.partition, kv.partition, NoField);
    LastSeven(s, Omit(t.namespace, kv.namespace, last), want);
    OmitLast(t.namespace, kv.namespace, last, want, s.Lookup(want));
    OmitLast(t.partition, kv.partition, NoField, want,
      if kv.namespace != "" && t.namespace == want then Some(Str(Sanitize(kv.namespace))) else s.Lookup(want));
  }

  lemma KVKey(t: KVNames, kv: KVPair, m: Fields)
    requires t.Distinct() && m == CleanFields(t.Document(kv))
    ensures StringOf(Get(m, t.key)) == Some(Sanitize(kv.key))
  {
    KVLookup(t, kv, t.key);
  }

  lemma KVSession(t: KVNames, kv: KVPair, m: Fields)
    requires t.Distinct() && m == CleanFields(t.Document(kv))
    ensures StringOf(Get(m, t.session)) == Some(Sanitize(kv.session))
  {
    KVLookup(t, kv, t.session);
  }

  lemma KVValue(t: KVNames, kv: KVPair, m: Fields)
    requires t.Distinct() && m == CleanFields(t.Document(kv))
    ensures BytesOf(Get(m, t.value)) == Some(kv.value)
  {
    KVLookup(t, kv, t.value);
    BytesTrip(kv.value);
  }

  lemma KVOptional(t: KVNames, kv: KVPair, m: Fields)
    requires t.Distinct() && m == CleanFields(t.Document(kv))
    ensures StringOf(Get(m, t.namespace)) == Some(Sanitize(kv.namespace))
    ensures StringOf(Get(m, t.partition)) == Some(Sanitize(kv.partition))
  {
    KVLookup(t, kv, t.namespace);
    KVLookup(t, kv, t.partition);
  }

  lemma KVIndexes(t: KVNames, kv: KVPair, m: Fields)
    requires t.Distinct() && m == CleanFields(t.Document(kv))
    ensures UintOf(Get(m, t.createIndex)) == Some(kv.createIndex)
    ensures UintOf(Get(m, t.modifyIndex)) == Some(kv.modifyIndex)
  {
    KVLookup(t, kv, t.createIndex);
    KVLookup(t, kv, t.modifyIndex);
    UintTrip(kv.createIndex);
    UintTrip(kv.modifyIndex);
  }

  lemma KVNumbers(t: KVNames, kv: KVPair, m: Fields)
    requires t.Distinct() && m == CleanFields(t.Document(kv))
    ensures UintOf(Get(m, t.lockIndex)) == Some(kv.lockIndex)
    ensures UintOf(Get(m, t.flags)) == Some(kv.flags)
  {
    KVLookup(t, kv, t.lockIndex);
    KVLookup(t, kv, t.flags);
    UintTrip(kv.lockIndex);
    UintTrip(kv.flags);
  }

  lemma KVDecode(t: KVNames, kv: KVPair, m: Fields)
    requires t.Distinct() && m == CleanFields(t.Document(kv))
    ensures t.Decode(m) == Some(CleanKV(kv))
  {
    KVKey(t, kv, m);
    KVSession(t, kv, m);
    KVValue(t, kv, m);
    KVOptional(t, kv, m);
    KVIndexes(t, kv, m);
    KVNumbers(t, kv, m);
  }

  lemma KVRoundTrip(kv: KVPair)
    ensures KVFromJson(CleanValue(KVJson(kv))) == Some(CleanKV(kv))
  {
    KVNamesDistinct();
    KVDecode(KV_NAMES, kv, CleanFields(KV_NAMES.Document(kv)));
    CleanObject(KV_NAMES.Document(kv));
  }

  lemma CleanObject(f: Fields)
    ensures CleanValue(Obj(f)) == Obj(CleanFields(f))
  {}

  // ---- consulapi.ACLEntry ----

  datatype ACLEntry = ACLEntry(
    createIndex: uint64, modifyIndex: uint64, id: string, name: string, kind: string, rules: string)

  const ACLENTRY_NAMES: seq<string> := ["CreateIndex", "ModifyIndex", "ID", "Name", "Type", "Rules"]

  function ACLEntryMembers(t: seq<string>, x: ACLEntry): (ms: seq<Member>)
    requires |t| == 6
    ensures |ms| == |t| && forall i :: 0 <= i < |t| ==> ms[i].name == t[i]
  {
    [Member(t[0], Num(IntLiteral(x.createIndex)), true),
     Member(t[1], Num(IntLiteral(x.modifyIndex)), true),
     Member(t[2], Str(x.id), true),
     Member(t[3], Str(x.name), true),
     Member(t[4], Str(x.kind), true),
     Member(t[5], Str(x.rules), true)]
  }

  function ACLEntryJson(x: ACLEntry): Value { Obj(Doc(ACLEntryMembers(ACLENTRY_NAMES, x))) }

  function ACLEntryFrom(t: seq<string>, m: Fields): Option<ACLEntry>
    requires |t| == 6
  {
    var createIndex :- UintOf(Get(m, t[0]));
    var modifyIndex :- UintOf(Get(m, t[1]));
    var id :- StringOf(Get(m, t[2]));
    var name :- StringOf(Get(m, t[3]));
    var kind :- StringOf(Get(m, t[4]));
    var rules :- StringOf(Get(m, t[5]));
    Some(ACLEntry(createIndex, modifyIndex, id, name, kind, rules))
  }

  function ACLEntryOf(v: Option<Value>): Option<ACLEntry> {
    var m :- FieldsOf(v);
    ACLEntryFrom(ACLENTRY_NAMES, m)
  }

  function CleanACLEntry(x: ACLEntry): ACLEntry {
    ACLEntry(x.createIndex, x.modifyIndex, Sanitize(x.id), Sanitize(x.name), Sanitize(x.kind), Sanitize(x.rules))
  }

  predicate ValidACLEntry(x: ACLEntry) {
    && Valid(x.id)
    && Valid(x.name)
    && Valid(x.kind)
    && Valid(x.rules)
  }

  lemma ACLEntryNames()
    ensures Table(ACLENTRY_NAMES)
  {}

  lemma ACLEntryIndexes(t: seq<string>, x: ACLEntry, m: Fields)
    requires |t| == 6
    requires Get(m, t[0]) == Some(CleanValue(Num(IntLiteral(x.createIndex))))
    requires Get(m, t[1]) == Some(CleanValue(Num(IntLiteral(x.modifyIndex))))
    ensures UintOf(Get(m, t[0])) == Some(x.createIndex)
    ensures UintOf(Get(m, t[1])) == Some(x.modifyIndex)
  {
    UintTrip(x.createIndex);
    UintTrip(x.modifyIndex);
  }

  lemma ACLEntryTexts(t: seq<string>, x: ACLEntry, m: Fields)
    requires |t| == 6
    requires Get(m, t[2]) == Some(CleanValue(Str(x.id)))
    requires Get(m, t[3]) == Some(CleanValue(Str(x.name)))
    requires Get(m, t[4]) == Some(CleanValue(Str(x.kind)))
    requires Get(m, t[5]) == Some(CleanValue(Str(x.rules)))
    ensures StringOf(Get(m, t[2])) == Some(Sanitize(x.id))
    ensures StringOf(Get(m, t[3])) == Some(Sanitize(x.name))
    ensures StringOf(Get(m, t[4])) == Some(Sanitize(x.kind))
    ensures StringOf(Get(m, t[5])) == Some(Sanitize(x.rules))
  {}

  lemma ACLEntryDecodes(t: seq<string>, x: ACLEntry, m: Fields)
    requires |t| == 6 && Table(t) && m == CleanFields(Doc(ACLEntryMembers(t, x)))
    ensures ACLEntryFrom(t, m) == Some(CleanACLEntry(x))
  {
    var ms := ACLEntryMembers(t, x);
    DocGet(ms);
    assert Get(m, ms[0].name) == Found(ms[0]);
    assert Get(m, ms[1].name) == Found(ms[1]);
    assert Get(m, ms[2].name) == Found(ms[2]);
    assert Get(m, ms[3].name) == Found(ms[3]);
    assert Get(m, ms[4].name) == Found(ms[4]);
    assert Get(m, ms[5].name) == Found(ms[5]);
    ACLEntryIndexes(t, x, m);
    ACLEntryTexts(t, x, m);
  }

  lemma ACLEntryObject(doc: Fields)
    ensures ACLEntryOf(Some(CleanValue(Obj(doc)))) == ACLEntryFrom(ACLENTRY_NAMES, CleanFields(doc))
  {}

  lemma ACLEntryTrip(x: ACLEntry)
    ensures ACLEntryOf(Some(CleanValue(ACLEntryJson(x)))) == Some(CleanACLEntry(x))
  {
    var doc := Doc(ACLEntryMembers(ACLENTRY_NAMES, x));
    ACLEntryNames();
    ACLEntryDecodes(ACLENTRY_NAMES, x, CleanFields(doc));
    ACLEntryObject(doc);
  }

  lemma ACLEntryExactIff(x: ACLEntry)
    ensures CleanACLEntry(x) == x <==> ValidACLEntry(x)
  {
    SanitizeExactIff(x.id);
    SanitizeExactIff(x.name);
    SanitizeExactIff(x.kind);
    SanitizeExactIff(x.rules);
  }

  // ---- Elements of lists ----

  // A null element, which would become a nil pointer, is not read here.
  function PQFromJson(v: Value): Option<PreparedQuery> { if v.Obj? then Queries.PreparedQueryOf(Some(v)) else None }

  function ACLFromJson(v: Value): Option<ACLEntry> { if v.Obj? then ACLEntryOf(Some(v)) else None }

  lemma PQFromObject(v: Value, x: PreparedQuery)
    requires v.Obj? && Queries.PreparedQueryOf(Some(CleanValue(v))) == Some(x)
    ensures PQFromJson(CleanValue(v)) == Some(x)
  {}

  lemma ACLFromObject(v: Value, x: ACLEntry)
    requires v.Obj? && ACLEntryOf(Some(CleanValue(v))) == Some(x)
    ensures ACLFromJson(CleanValue(v)) == Some(x)
  {}

  // ---- Lists ----

  function MarshalKVs(l: Slice<KVPair>): string { MarshalList(KVJson, l) }
  function MarshalPQs(l: Slice<PreparedQuery>): string { MarshalList(Queries.PreparedQueryJson, l) }
  function MarshalACLs(l: Slice<ACLEntry>): string { MarshalList(ACLEntryJson, l) }
  function UnmarshalKVs(s: string): Option<Slice<KVPair>> { UnmarshalList(KVFromJson, s) }
  function UnmarshalPQs(s: string): Option<Slice<PreparedQuery>> { UnmarshalList(PQFromJson, s) }
  function UnmarshalACLs(s: string): Option<Slice<ACLEntry>> { UnmarshalList(ACLFromJson, s) }

  function CleanKVs(l: Slice<KVPair>): Slice<KVPair> { MapSlice(CleanKV, l) }
  function CleanPQs(l: Slice<PreparedQuery>): Slice<PreparedQuery> { MapSlice(Queries.CleanPreparedQuery, l) }
  function CleanACLs(l: Slice<ACLEntry>): Slice<ACLEntry> { MapSlice(CleanACLEntry, l) }

  lemma PairTexts(t: KVNames, f: Fields, n: string)
    requires t.Decode(f).Some? && n in [t.key, t.session, t.namespace, t.partition, t.value] && Get(f, n).Some?
    ensures Get(f, n).value.Null? || Get(f, n).value.Str?
  {
    KindsIff(Get(f, n).value);
  }

  lemma PairNumbers(t: KVNames, f: Fields, n: string)
    requires t.Decode(f).Some? && n in [t.createIndex, t.modifyIndex, t.lockIndex, t.flags] && Get(f, n).Some?
    ensures Get(f, n).value.Null? || Get(f, n).value.Num?
  {
    KindsIff(Get(f, n).value);
  }

  // An element is a pair only if it is an object whose members, as far as they are
  // there, are null or of the kinds that a pair has.
  lemma PairsOnly(v: Value, n: string)
    requires KVFromJson(v).Some?
    ensures v.Obj?
    ensures n in ["Key", "Session", "Namespace", "Partition", "Value"] && Get(v.fields, n).Some? ==>
              Get(v.fields, n).value.Null? || Get(v.fields, n).value.Str?
    ensures n in ["CreateIndex", "ModifyIndex", "LockIndex", "Flags"] && Get(v.fields, n).Some? ==>
              Get(v.fields, n).value.Null? || Get(v.fields, n).value.Num?
  {
    if Get(v.fields, n).Some? {
      var t := KV_NAMES;
      if n in [t.key, t.session, t.namespace, t.partition, t.value] {
        PairTexts(t, v.fields, n);
      }
      if n in [t.createIndex, t.modifyIndex, t.lockIndex, t.flags] {
        PairNumbers(t, v.fields, n);
      }
    }
  }

  // Reading what was written gives every list back, invalid UTF-8 replaced.
  lemma KVListTrip(l: Slice<KVPair>)
    ensures UnmarshalKVs(MarshalKVs(l)) == Some(CleanKVs(l))
  {
    forall kv: KVPair ensures KVFromJson(CleanValue(KVJson(kv))) == Some(CleanKV(kv)) {
      KVRoundTrip(kv);
    }
    ListTrip(KVJson, KVFromJson, CleanKV, l);
  }

  lemma PQListTrip(l: Slice<PreparedQuery>)
    ensures UnmarshalPQs(MarshalPQs(l)) == Some(CleanPQs(l))
  {
    forall x: PreparedQuery
      ensures PQFromJson(CleanValue(Queries.PreparedQueryJson(x))) == Some(Queries.CleanPreparedQuery(x))
    {
      Queries.PreparedQueryTrip(x);
      PQFromObject(Queries.PreparedQueryJson(x), Queries.CleanPreparedQuery(x));
    }
    ListTrip(Queries.PreparedQueryJson, PQFromJson, Queries.CleanPreparedQuery, l);
  }

  lemma ACLListTrip(l: Slice<ACLEntry>)
    ensures UnmarshalACLs(MarshalACLs(l)) == Some(CleanACLs(l))
  {
    forall x: ACLEntry ensures ACLFromJson(CleanValue(ACLEntryJson(x))) == Some(CleanACLEntry(x)) {
      ACLEntryTrip(x);
      ACLFromObject(ACLEntryJson(x), CleanACLEntry(x));
    }
    ListTrip(ACLEntryJson, ACLFromJson, CleanACLEntry, l);
  }

  lemma CleanKVExactIff(kv: KVPair)
    ensures CleanKV(kv) == kv <==> ValidKV(kv)
  {
    SanitizeExactIff(kv.key);
    SanitizeExactIff(kv.session);
    SanitizeExactIff(kv.namespace);
    SanitizeExactIff(kv.partition);
  }

  // ---- When lists come back as they were ----

  predicate ValidKVs(l: Slice<KVPair>) { forall i :: 0 <= i < l.Len() ==> ValidKV(l.Elems()[i]) }

  predicate ValidPQs(l: Slice<PreparedQuery>) {
    forall i :: 0 <= i < l.Len() ==> Queries.ValidPreparedQuery(l.Elems()[i])
  }

  predicate ValidACLs(l: Slice<ACLEntry>) { forall i :: 0 <= i < l.Len() ==> ValidACLEntry(l.Elems()[i]) }

  lemma CleanKVsExactIff(l: Slice<KVPair>)
    ensures CleanKVs(l) == l <==> ValidKVs(l)
  {
    MapFixed(CleanKV, l);
    forall i | 0 <= i < l.Len() ensures CleanKV(l.Elems()[i]) == l.Elems()[i] <==> ValidKV(l.Elems()[i]) {
      CleanKVExactIff(l.Elems()[i]);
    }
  }

  lemma CleanPQsExactIff(l: Slice<PreparedQuery>)
    ensures CleanPQs(l) == l <==> ValidPQs(l)
  {
    MapFixed(Queries.CleanPreparedQuery, l);
    forall i | 0 <= i < l.Len()
      ensures Queries.CleanPreparedQuery(l.Elems()[i]) == l.Elems()[i] <==> Queries.ValidPreparedQuery(l.Elems()[i])
    {
      Queries.PreparedQueryExactIff(l.Elems()[i]);
    }
  }

  lemma CleanACLsExactIff(l: Slice<ACLEntry>)
    ensures CleanACLs(l) == l <==> ValidACLs(l)
  {
    MapFixed(CleanACLEntry, l);
    forall i | 0 <= i < l.Len() ensures CleanACLEntry(l.Elems()[i]) == l.Elems()[i] <==> ValidACLEntry(l.Elems()[i]) {
      ACLEntryExactIff(l.Elems()[i]);
    }
  }

  // The list itself comes back exactly when its strings are valid UTF-8;
  // values are unrestricted byte strings.
  lemma KVListExactIff(l: Slice<KVPair>)
    ensures UnmarshalKVs(MarshalKVs(l)) == Some(l) <==> ValidKVs(l)
  {
    KVListTrip(l);
    CleanKVsExactIff(l);
  }
}
