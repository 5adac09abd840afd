/**
 The two metadata documents: the service pair's JSON object, read back into a
 map of untyped values, and the legacy pair's struct. They hold the same seven
 members in the same order, under different names.
 */
module Metadata {
  import opened Wrappers
  import opened Decimal
  import opened Utf8
  import opened Json
  import opened Members
  import Float64

  datatype Meta = Meta(aclSum: string, version: string, end: int64, kvSum: string,
                       node: string, pqSum: string, start: int64)

  datatype MetaNames = MetaNames(aclSum: Name, version: Name, end: Name, kvSum: Name,
                                 node: Name, pqSum: Name, start: Name)
  {
    function Members(m: Meta): Seven {
      Seven(aclSum, Str(m.aclSum), version, Str(m.version), end, Num(IntLiteral(m.end)),
            kvSum, Str(m.kvSum), node, Str(m.node), pqSum, Str(m.pqSum), start, Num(IntLiteral(m.start)))
    }

    function Document(m: Meta): Fields { Members(m).Then(NoField) }

    predicate Distinct() { Members(ZERO_META).Distinct() }
  }

  const ZERO_META := Meta("", "", 0, "", "", "", 0)

  // json.Marshal writes a map's members in the order of their names.
  const SERVICE := MetaNames(
    "acl_checksum", "consul_snapshot_version", "end_time", "kv_checksum",
    "node_name", "pq_checksum", "start_time")

  // And a struct's in the order of its fields.
  const LEGACY := MetaNames(
    "ACLSha256", "ConsulSnapshotVersion", "EndTime", "KVSha256",
    "NodeName", "PQSha256", "StartTime")

  function MarshalMeta(t: MetaNames, m: Meta): string { Marshal(Obj(t.Document(m))) }

  // json.Unmarshal into a map[string]interface{}; null gives an empty one.
  function UnmarshalMap(s: string): Option<Fields> {
    var v :- Unmarshal(s);
    match v
    case Null => Some(NoField)
    case Obj(m) => Some(m)
    case _ => None
  }

  // Metadata["start_time"].(float64), as "%.0f" prints it. A number written
  // with a fraction or an exponent is not read here.
  function StartTimeOf(m: Fields): Option<int> {
    match Get(m, SERVICE.start)
    case Some(Num(lit)) =>
      var n :- ParseInt(lit);
      Some(Float64.Round(n))
    case _ => None
  }

  // Nothing but a number is taken for a start time.
  lemma TimedByNumber(m: Fields)
    ensures StartTimeOf(m).Some? ==> Get(m, "start_time").Some? && Get(m, "start_time").value.Num?
  {}

  // json.Unmarshal into a zero backup.Meta.
  function DecodeMeta(t: MetaNames, f: Fields): Option<Meta> {
    var aclSum :- StringOf(Get(f, t.aclSum));
    var version :- StringOf(Get(f, t.version));
    var end :- IntOf(Get(f, t.end));
    var kvSum :- StringOf(Get(f, t.kvSum));
    var node :- StringOf(Get(f, t.node));
    var pqSum :- StringOf(Get(f, t.pqSum));
    var start :- IntOf(Get(f, t.start));
    Some(Meta(aclSum, version, end, kvSum, node, pqSum, start))
  }

  function UnmarshalLegacyMeta(s: string): Option<Meta> {
    var f :- UnmarshalMap(s);
    DecodeMeta(LEGACY, f)
  }

  function CleanMeta(m: Meta): Meta {
    m.(aclSum := Sanitize(m.aclSum), version := Sanitize(m.version), kvSum := Sanitize(m.kvSum),
       node := Sanitize(m.node), pqSum := Sanitize(m.pqSum))
  }

  // ---- Metadata reads back ----

  lemma ServiceDistinct()
    ensures SERVICE.Distinct()
  {
    var n := SERVICE;
    assert |n.aclSum| == 12 && |n.version| == 23 && |n.end| == 8 && |n.kvSum| == 11;
    assert |n.node| == 9 && |n.pqSum| == 11 && |n.start| == 10;
    assert n.kvSum[0] == 'k' && n.pqSum[0] == 'p';
  }

  lemma LegacyDistinct()
    ensures LEGACY.Distinct()
  {
    var n := LEGACY;
    assert |n.aclSum| == 9 && |n.version| == 21 && |n.end| == 7 && |n.kvSum| == 8;
    assert |n.node| == 8 && |n.pqSum| == 8 && |n.start| == 9;
    assert n.kvSum[0] == 'K' && n.pqSum[0] == 'P' && n.node[0] == 'N';
    assert n.aclSum[0] == 'A' && n.start[0] == 'S';
  }

  lemma MetaLookup(t: MetaNames, m: Meta, want: string)
    requires t.Distinct()
    ensures Get(CleanFields(t.Document(m)), want) == t.Members(m).Lookup(want)
  {
    LastSeven(t.Members(m), NoField, want);
  }

  // What a reader of the document f decodes under each name.
  ghost predicate Holds(t: MetaNames, f: Fields, m: Meta) {
    && StringOf(Get(f, t.kvSum)) == Some(Sanitize(m.kvSum))
    && StringOf(Get(f, t.pqSum)) == Some(Sanitize(m.pqSum))
    && StringOf(Get(f, t.aclSum)) == Some(Sanitize(m.aclSum))
    && StringOf(Get(f, t.version)) == Some(Sanitize(m.version))
    && StringOf(Get(f, t.node)) == Some(Sanitize(m.node))
    && IntOf(Get(f, t.end)) == Some(m.end)
    && IntOf(Get(f, t.start)) == Some(m.start)
  }

  lemma MetaSums(t: MetaNames, m: Meta, f: Fields)
    requires t.Distinct() && f == CleanFields(t.Document(m))
    ensures StringOf(Get(f, t.kvSum)) == Some(Sanitize(m.kvSum))
    ensures StringOf(Get(f, t.pqSum)) == Some(Sanitize(m.pqSum))
  {
    MetaLookup(t, m, t.kvSum);
    MetaLookup(t, m, t.pqSum);
  }

  lemma MetaACLSum(t: MetaNames, m: Meta, f: Fields)
    requires t.Distinct() && f == CleanFields(t.Document(m))
    ensures StringOf(Get(f, t.aclSum)) == Some(Sanitize(m.aclSum))
  {
    MetaLookup(t, m, t.aclSum);
  }

  lemma MetaStrings(t: MetaNames, m: Meta, f: Fields)
    requires t.Distinct() && f == CleanFields(t.Document(m))
    ensures StringOf(Get(f, t.version)) == Some(Sanitize(m.version))
    ensures StringOf(Get(f, t.node)) == Some(Sanitize(m.node))
  {
    MetaLookup(t, m, t.version);
    MetaLookup(t, m, t.node);
  }

  lemma MetaTimes(t: MetaNames, m: Meta, f: Fields)
    requires t.Distinct() && f == CleanFields(t.Document(m))
    ensures IntOf(Get(f, t.end)) == Some(m.end)
    ensures IntOf(Get(f, t.start)) == Some(m.start)
    ensures Get(f, t.start) == Some(CleanValue(Num(IntLiteral(m.start))))
  {
    MetaLookup(t, m, t.end);
    MetaLookup(t, m, t.start);
    IntTrip(m.end);
    IntTrip(m.start);
  }

  lemma MetaHolds(t: MetaNames, m: Meta)
    requires t.Distinct()
    ensures Holds(t, CleanFields(t.Document(m)), m)
  {
    MetaSums(t, m, CleanFields(t.Document(m)));
    MetaACLSum(t, m, CleanFields(t.Document(m)));
    MetaStrings(t, m, CleanFields(t.Document(m)));
    MetaTimes(t, m, CleanFields(t.Document(m)));
  }

  lemma HoldsDecode(t: MetaNames, m: Meta, f: Fields)
    requires Holds(t, f, m)
    ensures DecodeMeta(t, f) == Some(CleanMeta(m))
  {}

  lemma MapTrip(g: Fields)
    ensures UnmarshalMap(Marshal(Obj(g))) == Some(CleanFields(g))
  {
    ObjectTrip(g);
  }

  lemma LegacyMapTrip(m: Meta, s: string, f: Fields)
    requires UnmarshalMap(s) == Some(f) && Holds(LEGACY, f, m)
    ensures UnmarshalLegacyMeta(s) == Some(CleanMeta(m))
  {
    HoldsDecode(LEGACY, m, f);
  }

  // The legacy metadata reads back, invalid UTF-8 replaced.
  lemma LegacyMetaTrip(m: Meta)
    ensures UnmarshalLegacyMeta(MarshalMeta(LEGACY, m)) == Some(CleanMeta(m))
  {
    LegacyDistinct();
    MetaHolds(LEGACY, m);
    MapTrip(LEGACY.Document(m));
    LegacyMapTrip(m, MarshalMeta(LEGACY, m), CleanFields(LEGACY.Document(m)));
  }

  lemma StartRounded(f: Fields, n: int64)
    requires Get(f, SERVICE.start) == Some(CleanValue(Num(IntLiteral(n))))
    ensures StartTimeOf(f) == Some(Float64.Round(n))
  {
    ParseIntFormat(n);
  }

  // The map a reader of the service metadata gets.
  function ServiceMap(m: Meta): Fields { CleanFields(SERVICE.Document(m)) }

  lemma ServiceMetaTrip(m: Meta)
    ensures UnmarshalMap(MarshalMeta(SERVICE, m)) == Some(ServiceMap(m))
  {
    MapTrip(SERVICE.Document(m));
  }

  // Its timestamp is the writer's start time rounded to a float64.
  lemma ServiceMapHolds(m: Meta)
    ensures Holds(SERVICE, ServiceMap(m), m)
    ensures StartTimeOf(ServiceMap(m)) == Some(Float64.Round(m.start))
  {
    ServiceDistinct();
    MetaHolds(SERVICE, m);
    MetaTimes(SERVICE, m, ServiceMap(m));
    StartRounded(ServiceMap(m), m.start);
  }
}
