/**
 consulapi.PreparedQueryDefinition and the structs inside it, as JSON objects and
 back. The text that comes back has its invalid UTF-8 replaced.
 */
module Queries {
  import opened Wrappers
  import opened Decimal
  import opened Utf8
  import opened Json
  import opened Members
  import opened Slices
  import opened Labels

  // ---- Lists of strings ----

  function Text(s: string): Value { Str(s) }

  // A null element leaves an empty string.
  function TextOf(v: Value): Option<string> { StringOf(Some(v)) }

  lemma TextsTrip(l: Slice<string>)
    ensures SliceOf(TextOf, Some(CleanValue(SliceJson(Text, l)))) == Some(MapSlice(Sanitize, l))
  {
    SliceTrip(Text, TextOf, Sanitize, l);
  }

  predicate AllValid(l: Slice<string>) {
    forall i :: 0 <= i < l.Len() ==> Valid(l.Elems()[i])
  }

  lemma TextsExactIff(l: Slice<string>)
    ensures MapSlice(Sanitize, l) == l <==> AllValid(l)
  {
    MapFixed(Sanitize, l);
    forall i | 0 <= i < l.Len() ensures Sanitize(l.Elems()[i]) == l.Elems()[i] <==> Valid(l.Elems()[i]) {
      SanitizeExactIff(l.Elems()[i]);
    }
  }

  // ---- consulapi.QueryFailoverTarget ----

  datatype Target = Target(
    peer: string, datacenter: string, partition: string, namespace: string)

  const TARGET_NAMES: seq<string> := ["Peer", "Datacenter", "Partition", "Namespace"]

  function TargetMembers(t: seq<string>, x: Target): (ms: seq<Member>)
    requires |t| == 4
    ensures |ms| == |t| && forall i :: 0 <= i < |t| ==> ms[i].name == t[i]
  {
    [Member(t[0], Str(x.peer), true),
     Member(t[1], Str(x.datacenter), true),
     Member(t[2], Str(x.partition), x.partition != ""),
     Member(t[3], Str(x.namespace), x.namespace != "")]
  }

  function TargetJson(x: Target): Value { Obj(Doc(TargetMembers(TARGET_NAMES, x))) }

  function TargetFrom(t: seq<string>, m: Fields): Option<Target>
    requires |t| == 4
  {
    var peer :- StringOf(Get(m, t[0]));
    var datacenter :- StringOf(Get(m, t[1]));
    var partition :- StringOf(Get(m, t[2]));
    var namespace :- StringOf(Get(m, t[3]));
    Some(Target(peer, datacenter, partition, namespace))
  }

  function TargetOf(v: Option<Value>): Option<Target> {
    var m :- FieldsOf(v);
    TargetFrom(TARGET_NAMES, m)
  }

  function CleanTarget(x: Target): Target {
    Target(Sanitize(x.peer), Sanitize(x.datacenter), Sanitize(x.partition), Sanitize(x.namespace))
  }

  predicate ValidTarget(x: Target) {
    && Valid(x.peer)
    && Valid(x.datacenter)
    && Valid(x.partition)
    && Valid(x.namespace)
  }

  lemma TargetNames()
    ensures Table(TARGET_NAMES)
  {}

  lemma TargetPart1(t: seq<string>, x: Target, m: Fields)
    requires |t| == 4
    requires Get(m, t[0]) == Some(CleanValue(Str(x.peer)))
    requires Get(m, t[1]) == Some(CleanValue(Str(x.datacenter)))
    requires Get(m, t[2]) == (if x.partition != "" then Some(CleanValue(Str(x.partition))) else None)
    requires Get(m, t[3]) == (if x.namespace != "" then Some(CleanValue(Str(x.namespace))) else None)
    ensures StringOf(Get(m, t[0])) == Some(Sanitize(x.peer))
    ensures StringOf(Get(m, t[1])) == Some(Sanitize(x.datacenter))
    ensures StringOf(Get(m, t[2])) == Some(Sanitize(x.partition))
    ensures StringOf(Get(m, t[3])) == Some(Sanitize(x.namespace))
  {
  }

  lemma TargetDecodes(t: seq<string>, x: Target, m: Fields)
    requires |t| == 4 && Table(t) && m == CleanFields(Doc(TargetMembers(t, x)))
    ensures TargetFrom(t, m) == Some(CleanTarget(x))
  {
    var ms := TargetMembers(t, x);
    DocGet(ms);
    assert Get(m, ms[0].name) == Found(ms[0]);
    assert Get(m, ms[1].name) == Found(ms[1]);
    assert Get(m, ms[2].name) == Found(ms[2]);
    assert Get(m, ms[3].name) == Found(ms[3]);
    TargetPart1(t, x, m);
  }

  lemma TargetObject(doc: Fields)
    ensures TargetOf(Some(CleanValue(Obj(doc)))) == TargetFrom(TARGET_NAMES, CleanFields(doc))
  {}

  lemma TargetTrip(x: Target)
    ensures TargetOf(Some(CleanValue(TargetJson(x)))) == Some(CleanTarget(x))
  {
    var doc := Doc(TargetMembers(TARGET_NAMES, x));
    TargetNames();
    TargetDecodes(TARGET_NAMES, x, CleanFields(doc));
    TargetObject(doc);
  }

  lemma TargetExactIff(x: Target)
    ensures CleanTarget(x) == x <==> ValidTarget(x)
  {
    SanitizeExactIff(x.peer);
    SanitizeExactIff(x.datacenter);
    SanitizeExactIff(x.partition);
    SanitizeExactIff(x.namespace);
  }

  function TargetFromJson(v: Value): Option<Target> { TargetOf(Some(v)) }

  lemma TargetsTrip(l: Slice<Target>)
    ensures SliceOf(TargetFromJson, Some(CleanValue(SliceJson(TargetJson, l)))) == Some(MapSlice(CleanTarget, l))
  {
    forall x: Target ensures TargetFromJson(CleanValue(TargetJson(x))) == Some(CleanTarget(x)) {
      TargetTrip(x);
    }
    SliceTrip(TargetJson, TargetFromJson, CleanTarget, l);
  }

  lemma TargetsExactIff(l: Slice<Target>)
    ensures MapSlice(CleanTarget, l) == l <==> forall i :: 0 <= i < l.Len() ==> ValidTarget(l.Elems()[i])
  {
    MapFixed(CleanTarget, l);
    forall i | 0 <= i < l.Len() ensures CleanTarget(l.Elems()[i]) == l.Elems()[i] <==> ValidTarget(l.Elems()[i]) {
      TargetExactIff(l.Elems()[i]);
    }
  }

  // ---- consulapi.QueryFailoverOptions ----

  datatype Failover = Failover(
    nearest: int64, datacenters: Slice<string>, targets: Slice<Target>)

  const FAILOVER_NAMES: seq<string> := ["NearestN", "Datacenters", "Targets"]

  function FailoverMembers(t: seq<string>, x: Failover): (ms: seq<Member>)
    requires |t| == 3
    ensures |ms| == |t| && forall i :: 0 <= i < |t| ==> ms[i].name == t[i]
  {
    [Member(t[0], Num(IntLiteral(x.nearest)), true),
     Member(t[1], SliceJson(Text, x.datacenters), true),
     Member(t[2], SliceJson(TargetJson, x.targets), true)]
  }

  function FailoverJson(x: Failover): Value { Obj(Doc(FailoverMembers(FAILOVER_NAMES, x))) }

  function FailoverFrom(t: seq<string>, m: Fields): Option<Failover>
    requires |t| == 3
  {
    var nearest :- IntOf(Get(m, t[0]));
    var datacenters :- SliceOf(TextOf, Get(m, t[1]));
    var targets :- SliceOf(TargetFromJson, Get(m, t[2]));
    Some(Failover(nearest, datacenters, targets))
  }

  function FailoverOf(v: Option<Value>): Option<Failover> {
    var m :- FieldsOf(v);
    FailoverFrom(FAILOVER_NAMES, m)
  }

  function CleanFailover(x: Failover): Failover {
    Failover(x.nearest, MapSlice(Sanitize, x.datacenters), MapSlice(CleanTarget, x.targets))
  }

  predicate ValidFailover(x: Failover) {
    && AllValid(x.datacenters)
    && (forall i :: 0 <= i < x.targets.Len() ==> ValidTarget(x.targets.Elems()[i]))
  }

  lemma FailoverNames()
    ensures Table(FAILOVER_NAMES)
  {}

  lemma FailoverPart1(t: seq<string>, x: Failover, m: Fields)
    requires |t| == 3
    requires Get(m, t[0]) == Some(CleanValue(Num(IntLiteral(x.nearest))))
    requires Get(m, t[1]) == Some(CleanValue(SliceJson(Text, x.datacenters)))
    requires Get(m, t[2]) == Some(CleanValue(SliceJson(TargetJson, x.targets)))
    ensures IntOf(Get(m, t[0])) == Some(x.nearest)
    ensures SliceOf(TextOf, Get(m, t[1])) == Some(MapSlice(Sanitize, x.datacenters))
    ensures SliceOf(TargetFromJson, Get(m, t[2])) == Some(MapSlice(CleanTarget, x.targets))
  {
    IntTrip(x.nearest);
    TextsTrip(x.datacenters);
    TargetsTrip(x.targets);
  }

  lemma FailoverDecodes(t: seq<string>, x: Failover, m: Fields)
    requires |t| == 3 && Table(t) && m == CleanFields(Doc(FailoverMembers(t, x)))
    ensures FailoverFrom(t, m) == Some(CleanFailover(x))
  {
    var ms := FailoverMembers(t, x);
    DocGet(ms);
    assert Get(m, ms[0].name) == Found(ms[0]);
    assert Get(m, ms[1].name) == Found(ms[1]);
    assert Get(m, ms[2].name) == Found(ms[2]);
    FailoverPart1(t, x, m);
  }

  lemma FailoverObject(doc: Fields)
    ensures FailoverOf(Some(CleanValue(Obj(doc)))) == FailoverFrom(FAILOVER_NAMES, CleanFields(doc))
  {}

  lemma FailoverTrip(x: Failover)
    ensures FailoverOf(Some(CleanValue(FailoverJson(x)))) == Some(CleanFailover(x))
  {
    var doc := Doc(FailoverMembers(FAILOVER_NAMES, x));
    FailoverNames();
    FailoverDecodes(FAILOVER_NAMES, x, CleanFields(doc));
    FailoverObject(doc);
  }

  lemma FailoverExactIff(x: Failover)
    ensures CleanFailover(x) == x <==> ValidFailover(x)
  {
    TextsExactIff(x.datacenters);
    TargetsExactIff(x.targets);
  }

  // ---- consulapi.ServiceQuery ----

  datatype ServiceQuery = ServiceQuery(
    service: string, samenessGroup: string, namespace: string, partition: string, near: string, failover: Failover,
    ignoreCheckIDs: Slice<string>, onlyPassing: bool, tags: Slice<string>, nodeMeta: Option<Labels>,
    serviceMeta: Option<Labels>, connect: bool)

  const SERVICEQUERY_NAMES: seq<string> := ["Service", "SamenessGroup", "Namespace", "Partition", "Near", "Failover",
    "IgnoreCheckIDs", "OnlyPassing", "Tags", "NodeMeta", "ServiceMeta", "Connect"]

  function ServiceQueryMembers(t: seq<string>, x: ServiceQuery): (ms: seq<Member>)
    requires |t| == 12
    ensures |ms| == |t| && forall i :: 0 <= i < |t| ==> ms[i].name == t[i]
  {
    [Member(t[0], Str(x.service), true),
     Member(t[1], Str(x.samenessGroup), x.samenessGroup != ""),
     Member(t[2], Str(x.namespace), x.namespace != ""),
     Member(t[3], Str(x.partition), x.partition != ""),
     Member(t[4], Str(x.near), true),
     Member(t[5], FailoverJson(x.failover), true),
     Member(t[6], SliceJson(Text, x.ignoreCheckIDs), true),
     Member(t[7], Bool(x.onlyPassing), true),
     Member(t[8], SliceJson(Text, x.tags), true),
     Member(t[9], LabelsJson(x.nodeMeta), true),
     Member(t[10], LabelsJson(x.serviceMeta), true),
     Member(t[11], Bool(x.connect), true)]
  }

  function ServiceQueryJson(x: ServiceQuery): Value { Obj(Doc(ServiceQueryMembers(SERVICEQUERY_NAMES, x))) }

  function ServiceQueryFrom(t: seq<string>, m: Fields): Option<ServiceQuery>
    requires |t| == 12
  {
    var service :- StringOf(Get(m, t[0]));
    var samenessGroup :- StringOf(Get(m, t[1]));
    var namespace :- StringOf(Get(m, t[2]));
    var partition :- StringOf(Get(m, t[3]));
    var near :- StringOf(Get(m, t[4]));
    var failover :- FailoverOf(Get(m, t[5]));
    var ignoreCheckIDs :- SliceOf(TextOf, Get(m, t[6]));
    var onlyPassing :- BoolOf(Get(m, t[7]));
    var tags :- SliceOf(TextOf, Get(m, t[8]));
    var nodeMeta :- LabelsOf(Get(m, t[9]));
    var serviceMeta :- LabelsOf(Get(m, t[10]));
    var connect :- BoolOf(Get(m, t[11]));
    Some(ServiceQuery(service, samenessGroup, namespace, partition, near, failover, ignoreCheckIDs, onlyPassing, tags,
      nodeMeta, serviceMeta, connect))
  }

  function ServiceQueryOf(v: Option<Value>): Option<ServiceQuery> {
    var m :- FieldsOf(v);
    ServiceQueryFrom(SERVICEQUERY_NAMES, m)
  }

  function CleanServiceQuery(x: ServiceQuery): ServiceQuery {
    ServiceQuery(Sanitize(x.service), Sanitize(x.samenessGroup), Sanitize(x.namespace), Sanitize(x.partition),
      Sanitize(x.near), CleanFailover(x.failover), MapSlice(Sanitize, x.ignoreCheckIDs), x.onlyPassing,
      MapSlice(Sanitize, x.tags), CleanLabels(x.nodeMeta), CleanLabels(x.serviceMeta), x.connect)
  }

  predicate ValidServiceQuery(x: ServiceQuery) {
    && Valid(x.service)
    && Valid(x.samenessGroup)
    && Valid(x.namespace)
    && Valid(x.partition)
    && Valid(x.near)
    && ValidFailover(x.failover)
    && AllValid(x.ignoreCheckIDs)
    && AllValid(x.tags)
    && ValidLabels(x.nodeMeta)
    && ValidLabels(x.serviceMeta)
  }

  lemma ServiceQueryAscii()
    ensures forall i :: 0 <= i < |SERVICEQUERY_NAMES| ==> Ascii(SERVICEQUERY_NAMES[i])
  {}

  // The names differ in their lengths or in their first letters.
  lemma ServiceQueryDistinct()
    ensures forall i, j :: 0 <= i < j < |SERVICEQUERY_NAMES| ==> SERVICEQUERY_NAMES[i] != SERVICEQUERY_NAMES[j]
  {
    var t := SERVICEQUERY_NAMES;
    assert |t[0]| == 7 && |t[1]| == 13 && |t[2]| == 9 && |t[3]| == 9 && |t[4]| == 4 && |t[5]| == 8;
    assert |t[6]| == 14 && |t[7]| == 11 && |t[8]| == 4 && |t[9]| == 8 && |t[10]| == 11 && |t[11]| == 7;
    assert t[0][0] == 'S' && t[2][0] == 'N' && t[3][0] == 'P' && t[4][0] == 'N' && t[5][0] == 'F' && t[7][0] == 'O'
      && t[8][0] == 'T' && t[9][0] == 'N' && t[10][0] == 'S' && t[11][0] == 'C';
  }

  lemma ServiceQueryNames()
    ensures Table(SERVICEQUERY_NAMES)
  {
    ServiceQueryAscii();
    ServiceQueryDistinct();
  }

  lemma ServiceQueryPart1(t: seq<string>, x: ServiceQuery, m: Fields)
    requires |t| == 12
    requires Get(m, t[0]) == Some(CleanValue(Str(x.service)))
    requires Get(m, t[1]) == (if x.samenessGroup != "" then Some(CleanValue(Str(x.samenessGroup))) else None)
    requires Get(m, t[2]) == (if x.namespace != "" then Some(CleanValue(Str(x.namespace))) else None)
    requires Get(m, t[3]) == (if x.partition != "" then Some(CleanValue(Str(x.partition))) else None)
    ensures StringOf(Get(m, t[0])) == Some(Sanitize(x.service))
    ensures StringOf(Get(m, t[1])) == Some(Sanitize(x.samenessGroup))
    ensures StringOf(Get(m, t[2])) == Some(Sanitize(x.namespace))
    ensures StringOf(Get(m, t[3])) == Some(Sanitize(x.partition))
  {
  }

  lemma ServiceQueryPart2(t: seq<string>, x: ServiceQuery, m: Fields)
    requires |t| == 12
    requires Get(m, t[4]) == Some(CleanValue(Str(x.near)))
    requires Get(m, t[5]) == Some(CleanValue(FailoverJson(x.failover)))
    requires Get(m, t[6]) == Some(CleanValue(SliceJson(Text, x.ignoreCheckIDs)))
    requires Get(m, t[7]) == Some(CleanValue(Bool(x.onlyPassing)))
    ensures StringOf(Get(m, t[4])) == Some(Sanitize(x.near))
    ensures FailoverOf(Get(m, t[5])) == Some(CleanFailover(x.failover))
    ensures SliceOf(TextOf, Get(m, t[6])) == Some(MapSlice(Sanitize, x.ignoreCheckIDs))
    ensures BoolOf(Get(m, t[7])) == Some(x.onlyPassing)
  {
    FailoverTrip(x.failover);
    TextsTrip(x.ignoreCheckIDs);
  }

  lemma ServiceQueryPart3(t: seq<string>, x: ServiceQuery, m: Fields)
    requires |t| == 12
    requires Get(m, t[8]) == Some(CleanValue(SliceJson(Text, x.tags)))
    requires Get(m, t[9]) == Some(CleanValue(LabelsJson(x.nodeMeta)))
    requires Get(m, t[10]) == Some(CleanValue(LabelsJson(x.serviceMeta)))
    requires Get(m, t[11]) == Some(CleanValue(Bool(x.connect)))
    ensures SliceOf(TextOf, Get(m, t[8])) == Some(MapSlice(Sanitize, x.tags))
    ensures LabelsOf(Get(m, t[9])) == Some(CleanLabels(x.nodeMeta))
    ensures LabelsOf(Get(m, t[10])) == Some(CleanLabels(x.serviceMeta))
    ensures BoolOf(Get(m, t[11])) == Some(x.connect)
  {
    TextsTrip(x.tags);
    LabelsTrip(x.nodeMeta);
    LabelsTrip(x.serviceMeta);
  }

  lemma ServiceQueryDecodes(t: seq<string>, x: ServiceQuery, m: Fields)
    requires |t| == 12 && Table(t) && m == CleanFields(Doc(ServiceQueryMembers(t, x)))
    ensures ServiceQueryFrom(t, m) == Some(CleanServiceQuery(x))
  {
    var ms := ServiceQueryMembers(t, x);
    DocGet(ms);
    assert Get(m, ms[0].name) == Found(ms[0]);
    assert Get(m, ms[1].name) == Found(ms[1]);
    assert Get(m, ms[2].name) == Found(ms[2]);
    assert Get(m, ms[3].name) == Found(ms[3]);
    assert Get(m, ms[4].name) == Found(ms[4]);
    assert Get(m, ms[5].name) == Found(ms[5]);
    assert Get(m, ms[6].name) == Found(ms[6]);
    assert Get(m, ms[7].name) == Found(ms[7]);
    assert Get(m, ms[8].name) == Found(ms[8]);
    assert Get(m, ms[9].name) == Found(ms[9]);
    assert Get(m, ms[10].name) == Found(ms[10]);
    assert Get(m, ms[11].name) == Found(ms[11]);
    ServiceQueryPart1(t, x, m);
    ServiceQueryPart2(t, x, m);
    ServiceQueryPart3(t, x, m);
  }

  lemma ServiceQueryObject(doc: Fields)
    ensures ServiceQueryOf(Some(CleanValue(Obj(doc)))) == ServiceQueryFrom(SERVICEQUERY_NAMES, CleanFields(doc))
  {}

  lemma ServiceQueryTrip(x: ServiceQuery)
    ensures ServiceQueryOf(Some(CleanValue(ServiceQueryJson(x)))) == Some(CleanServiceQuery(x))
  {
    var doc := Doc(ServiceQueryMembers(SERVICEQUERY_NAMES, x));
    ServiceQueryNames();
    ServiceQueryDecodes(SERVICEQUERY_NAMES, x, CleanFields(doc));
    ServiceQueryObject(doc);
  }

  lemma ServiceQueryExactIff(x: ServiceQuery)
    ensures CleanServiceQuery(x) == x <==> ValidServiceQuery(x)
  {
    SanitizeExactIff(x.service);
    SanitizeExactIff(x.samenessGroup);
    SanitizeExactIff(x.namespace);
    SanitizeExactIff(x.partition);
    SanitizeExactIff(x.near);
    FailoverExactIff(x.failover);
    TextsExactIff(x.ignoreCheckIDs);
    TextsExactIff(x.tags);
    CleanLabelsExactIff(x.nodeMeta);
    CleanLabelsExactIff(x.serviceMeta);
  }

  // ---- consulapi.QueryDNSOptions ----

  datatype DNS = DNS(
    ttl: string)

  const DNS_NAMES: seq<string> := ["TTL"]

  function DNSMembers(t: seq<string>, x: DNS): (ms: seq<Member>)
    requires |t| == 1
    ensures |ms| == |t| && forall i :: 0 <= i < |t| ==> ms[i].name == t[i]
  {
    [Member(t[0], Str(x.ttl), true)]
  }

  function DNSJson(x: DNS): Value { Obj(Doc(DNSMembers(DNS_NAMES, x))) }

  function DNSFrom(t: seq<string>, m: Fields): Option<DNS>
    requires |t| == 1
  {
    var ttl :- StringOf(Get(m, t[0]));
    Some(DNS(ttl))
  }

  function DNSOf(v: Option<Value>): Option<DNS> {
    var m :- FieldsOf(v);
    DNSFrom(DNS_NAMES, m)
  }

  function CleanDNS(x: DNS): DNS {
    DNS(Sanitize(x.ttl))
  }

  predicate ValidDNS(x: DNS) {
    && Valid(x.ttl)
  }

  lemma DNSNames()
    ensures Table(DNS_NAMES)
  {}

  lemma DNSPart1(t: seq<string>, x: DNS, m: Fields)
    requires |t| == 1
    requires Get(m, t[0]) == Some(CleanValue(Str(x.ttl)))
    ensures StringOf(Get(m, t[0])) == Some(Sanitize(x.ttl))
  {
  }

  lemma DNSDecodes(t: seq<string>, x: DNS, m: Fields)
    requires |t| == 1 && Table(t) && m == CleanFields(Doc(DNSMembers(t, x)))
    ensures DNSFrom(t, m) == Some(CleanDNS(x))
  {
    var ms := DNSMembers(t, x);
    DocGet(ms);
    assert Get(m, ms[0].name) == Found(ms[0]);
    DNSPart1(t, x, m);
  }

  lemma DNSObject(doc: Fields)
    ensures DNSOf(Some(CleanValue(Obj(doc)))) == DNSFrom(DNS_NAMES, CleanFields(doc))
  {}

  lemma DNSTrip(x: DNS)
    ensures DNSOf(Some(CleanValue(DNSJson(x)))) == Some(CleanDNS(x))
  {
    var doc := Doc(DNSMembers(DNS_NAMES, x));
    DNSNames();
    DNSDecodes(DNS_NAMES, x, CleanFields(doc));
    DNSObject(doc);
  }

  lemma DNSExactIff(x: DNS)
    ensures CleanDNS(x) == x <==> ValidDNS(x)
  {
    SanitizeExactIff(x.ttl);
  }

  // ---- consulapi.QueryTemplate ----

  datatype Template = Template(
    kind: string, regexp: string, removeEmptyTags: bool)

  const TEMPLATE_NAMES: seq<string> := ["Type", "Regexp", "RemoveEmptyTags"]

  function TemplateMembers(t: seq<string>, x: Template): (ms: seq<Member>)
    requires |t| == 3
    ensures |ms| == |t| && forall i :: 0 <= i < |t| ==> ms[i].name == t[i]
  {
    [Member(t[0], Str(x.kind), true),
     Member(t[1], Str(x.regexp), true),
     Member(t[2], Bool(x.removeEmptyTags), true)]
  }

  function TemplateJson(x: Template): Value { Obj(Doc(TemplateMembers(TEMPLATE_NAMES, x))) }

  function TemplateFrom(t: seq<string>, m: Fields): Option<Template>
    requires |t| == 3
  {
    var kind :- StringOf(Get(m, t[0]));
    var regexp :- StringOf(Get(m, t[1]));
    var removeEmptyTags :- BoolOf(Get(m, t[2]));
    Some(Template(kind, regexp, removeEmptyTags))
  }

  function TemplateOf(v: Option<Value>): Option<Template> {
    var m :- FieldsOf(v);
    TemplateFrom(TEMPLATE_NAMES, m)
  }

  function CleanTemplate(x: Template): Template {
    Template(Sanitize(x.kind), Sanitize(x.regexp), x.removeEmptyTags)
  }

  predicate ValidTemplate(x: Template) {
    && Valid(x.kind)
    && Valid(x.regexp)
  }

  lemma TemplateNames()
    ensures Table(TEMPLATE_NAMES)
  {}

  lemma TemplatePart1(t: seq<string>, x: Template, m: Fields)
    requires |t| == 3
    requires Get(m, t[0]) == Some(CleanValue(Str(x.kind)))
    requires Get(m, t[1]) == Some(CleanValue(Str(x.regexp)))
    requires Get(m, t[2]) == Some(CleanValue(Bool(x.removeEmptyTags)))
    ensures StringOf(Get(m, t[0])) == Some(Sanitize(x.kind))
    ensures StringOf(Get(m, t[1])) == Some(Sanitize(x.regexp))
    ensures BoolOf(Get(m, t[2])) == Some(x.removeEmptyTags)
  {
  }

  lemma TemplateDecodes(t: seq<string>, x: Template, m: Fields)
    requires |t| == 3 && Table(t) && m == CleanFields(Doc(TemplateMembers(t, x)))
    ensures TemplateFrom(t, m) == Some(CleanTemplate(x))
  {
    var ms := TemplateMembers(t, x);
    DocGet(ms);
    assert Get(m, ms[0].name) == Found(ms[0]);
    assert Get(m, ms[1].name) == Found(ms[1]);
    assert Get(m, ms[2].name) == Found(ms[2]);
    TemplatePart1(t, x, m);
  }

  lemma TemplateObject(doc: Fields)
    ensures TemplateOf(Some(CleanValue(Obj(doc)))) == TemplateFrom(TEMPLATE_NAMES, CleanFields(doc))
  {}

  lemma TemplateTrip(x: Template)
    ensures TemplateOf(Some(CleanValue(TemplateJson(x)))) == Some(CleanTemplate(x))
  {
    var doc := Doc(TemplateMembers(TEMPLATE_NAMES, x));
    TemplateNames();
    TemplateDecodes(TEMPLATE_NAMES, x, CleanFields(doc));
    TemplateObject(doc);
  }

  lemma TemplateExactIff(x: Template)
    ensures CleanTemplate(x) == x <==> ValidTemplate(x)
  {
    SanitizeExactIff(x.kind);
    SanitizeExactIff(x.regexp);
  }

  // ---- consulapi.PreparedQueryDefinition ----

  datatype PreparedQuery = PreparedQuery(
    id: string, name: string, session: string, token: string, service: ServiceQuery, dns: DNS, template: Template)

  const PREPAREDQUERY_NAMES: seq<string> := ["ID", "Name", "Session", "Token", "Service", "DNS", "Template"]

  function PreparedQueryMembers(t: seq<string>, x: PreparedQuery): (ms: seq<Member>)
    requires |t| == 7
    ensures |ms| == |t| && forall i :: 0 <= i < |t| ==> ms[i].name == t[i]
  {
    [Member(t[0], Str(x.id), true),
     Member(t[1], Str(x.name), true),
     Member(t[2], Str(x.session), true),
     Member(t[3], Str(x.token), true),
     Member(t[4], ServiceQueryJson(x.service), true),
     Member(t[5], DNSJson(x.dns), true),
     Member(t[6], TemplateJson(x.template), true)]
  }

  function PreparedQueryJson(x: PreparedQuery): Value { Obj(Doc(PreparedQueryMembers(PREPAREDQUERY_NAMES, x))) }

  function PreparedQueryFrom(t: seq<string>, m: Fields): Option<PreparedQuery>
    requires |t| == 7
  {
    var id :- StringOf(Get(m, t[0]));
    var name :- StringOf(Get(m, t[1]));
    var session :- StringOf(Get(m, t[2]));
    var token :- StringOf(Get(m, t[3]));
    var service :- ServiceQueryOf(Get(m, t[4]));
    var dns :- DNSOf(Get(m, t[5]));
    var template :- TemplateOf(Get(m, t[6]));
    Some(PreparedQuery(id, name, session, token, service, dns, template))
  }

  function PreparedQueryOf(v: Option<Value>): Option<PreparedQuery> {
    var m :- FieldsOf(v);
    PreparedQueryFrom(PREPAREDQUERY_NAMES, m)
  }

  function CleanPreparedQuery(x: PreparedQuery): PreparedQuery {
    PreparedQuery(Sanitize(x.id), Sanitize(x.name), Sanitize(x.session), Sanitize(x.token),
      CleanServiceQuery(x.service), CleanDNS(x.dns), CleanTemplate(x.template))
  }

  predicate ValidPreparedQuery(x: PreparedQuery) {
    && Valid(x.id)
    && Valid(x.name)
    && Valid(x.session)
    && Valid(x.token)
    && ValidServiceQuery(x.service)
    && ValidDNS(x.dns)
    && ValidTemplate(x.template)
  }

  lemma PreparedQueryNames()
    ensures Table(PREPAREDQUERY_NAMES)
  {}

  lemma PreparedQueryPart1(t: seq<string>, x: PreparedQuery, m: Fields)
    requires |t| == 7
    requires Get(m, t[0]) == Some(CleanValue(Str(x.id)))
    requires Get(m, t[1]) == Some(CleanValue(Str(x.name)))
    requires Get(m, t[2]) == Some(CleanValue(Str(x.session)))
    requires Get(m, t[3]) == Some(CleanValue(Str(x.token)))
    ensures StringOf(Get(m, t[0])) == Some(Sanitize(x.id))
    ensures StringOf(Get(m, t[1])) == Some(Sanitize(x.name))
    ensures StringOf(Get(m, t[2])) == Some(Sanitize(x.session))
    ensures StringOf(Get(m, t[3])) == Some(Sanitize(x.token))
  {
  }

  lemma PreparedQueryPart2(t: seq<string>, x: PreparedQuery, m: Fields)
    requires |t| == 7
    requires Get(m, t[4]) == Some(CleanValue(ServiceQueryJson(x.service)))
    requires Get(m, t[5]) == Some(CleanValue(DNSJson(x.dns)))
    requires Get(m, t[6]) == Some(CleanValue(TemplateJson(x.template)))
    ensures ServiceQueryOf(Get(m, t[4])) == Some(CleanServiceQuery(x.service))
    ensures DNSOf(Get(m, t[5])) == Some(CleanDNS(x.dns))
    ensures TemplateOf(Get(m, t[6])) == Some(CleanTemplate(x.template))
  {
    ServiceQueryTrip(x.service);
    DNSTrip(x.dns);
    TemplateTrip(x.template);
  }

  lemma PreparedQueryDecodes(t: seq<string>, x: PreparedQuery, m: Fields)
    requires |t| == 7 && Table(t) && m == CleanFields(Doc(PreparedQueryMembers(t, x)))
    ensures PreparedQueryFrom(t, m) == Some(CleanPreparedQuery(x))
  {
    var ms := PreparedQueryMembers(t, x);
    DocGet(ms);
    assert Get(m, ms[0].name) == Found(ms[0]);
    assert Get(m, ms[1].name) == Found(ms[1]);
    assert Get(m, ms[2].name) == Found(ms[2]);
    assert Get(m, ms[3].name) == Found(ms[3]);
    assert Get(m, ms[4].name) == Found(ms[4]);
    assert Get(m, ms[5].name) == Found(ms[5]);
    assert Get(m, ms[6].name) == Found(ms[6]);
    PreparedQueryPart1(t, x, m);
    PreparedQueryPart2(t, x, m);
  }

  lemma PreparedQueryObject(doc: Fields)
    ensures PreparedQueryOf(Some(CleanValue(Obj(doc)))) == PreparedQueryFrom(PREPAREDQUERY_NAMES, CleanFields(doc))
  {}

  lemma PreparedQueryTrip(x: PreparedQuery)
    ensures PreparedQueryOf(Some(CleanValue(PreparedQueryJson(x)))) == Some(CleanPreparedQuery(x))
  {
    var doc := Doc(PreparedQueryMembers(PREPAREDQUERY_NAMES, x));
    PreparedQueryNames();
    PreparedQueryDecodes(PREPAREDQUERY_NAMES, x, CleanFields(doc));
    PreparedQueryObject(doc);
  }

  lemma PreparedQueryExactIff(x: PreparedQuery)
    ensures CleanPreparedQuery(x) == x <==> ValidPreparedQuery(x)
  {
    SanitizeExactIff(x.id);
    SanitizeExactIff(x.name);
    SanitizeExactIff(x.session);
    SanitizeExactIff(x.token);
    ServiceQueryExactIff(x.service);
    DNSExactIff(x.dns);
    TemplateExactIff(x.template);
  }
}
