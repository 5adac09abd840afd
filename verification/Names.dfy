/** The file, directory and object names both pipelines derive from a start time. */
module Names {
  import opened Decimal
  import opened Paths
  import opened Text

  const META := "meta.json"
  const ACCEPTANCE := "acceptancetest"
  const TAR_GZ := ".tar.gz"
  const GZ := ".gz"

  datatype Family = KV | PQ | ACL

  function FamilyTag(f: Family): string {
    match f
    case KV => "kv"
    case PQ => "pq"
    case ACL => "acl"
  }

  // "consul.kv.%s.json" and its siblings.
  function DataName(f: Family, start: int): string {
    "consul." + FamilyTag(f) + "." + Format(start) + ".json"
  }

  // "%s.consul.snapshot.%s": the staging directory.
  function StageName(host: string, start: int): string {
    host + ".consul.snapshot." + Format(start)
  }

  function ArchiveName(host: string, start: int): string {
    StageName(host, start) + TAR_GZ
  }

  // The calendar day of a start time, as the program's time library gives it.
  datatype Date = Date(year: int, month: int, day: int)

  // "%s/%d/%d/%d/%s": the object an archive is uploaded to.
  function ObjectKey(prefix: string, date: Date, file: string): string {
    prefix + "/" + Format(date.year) + "/" + Format(date.month) + "/" + Format(date.day) + "/" + file
  }

  // The directory the legacy restore expects an archive to unpack into.
  function StripSuffixes(path: string): string {
    RemoveFirst(RemoveFirst(path, TAR_GZ), GZ)
  }

  // ---- Names are simple, distinct and tell their start time ----

  lemma DataNameSimple(f: Family, start: int)
    ensures Simple(DataName(f, start)) && Simple(META)
    ensures DataName(f, start) != META
  {
    FormatChars(start);
    assert DataName(f, start)[0] == 'c' && META[0] == 'm';
  }

  lemma StageNameSimple(host: string, start: int)
    requires '/' !in host
    ensures Simple(StageName(host, start)) && Simple(ArchiveName(host, start))
    ensures Simple(ArchiveName(host, start) + ".extracted")
  {
    FormatChars(start);
    assert |StageName(host, start)| > 2;
  }

  // The four names written to one staging directory, whatever the start times.
  lemma DataNamesDistinct(f: Family, s: int, g: Family, t: int)
    ensures DataName(f, s) == DataName(g, t) <==> f == g && s == t
  {
    if DataName(f, s) == DataName(g, t) {
      DataNameParts(f, s);
      DataNameParts(g, t);
      assert FamilyTag(f)[0] == FamilyTag(g)[0];
      PrefixCancel(DataHead(f), Format(s) + ".json", Format(t) + ".json");
      SuffixCancel(Format(s), Format(t), ".json");
      FormatInjective(s, t);
    }
  }

  function DataHead(f: Family): string { "consul." + FamilyTag(f) + "." }

  lemma DataNameParts(f: Family, start: int)
    ensures DataName(f, start) == DataHead(f) + (Format(start) + ".json") && DataName(f, start)[7] == FamilyTag(f)[0]
  {}

  lemma PrefixCancel(pre: string, a: string, b: string)
    requires pre + a == pre + b
    ensures a == b
  {
    assert a == (pre + a)[|pre|..] == (pre + b)[|pre|..] == b;
  }

  lemma SuffixCancel(a: string, b: string, suffix: string)
    requires a + suffix == b + suffix
    ensures a == b
  {
    assert |a| == |b|;
    assert a == (a + suffix)[..|a|] && b == (b + suffix)[..|b|];
  }

  lemma StageNameInjective(host: string, s: int, host': string, t: int)
    requires StageName(host, s) == StageName(host', t)
    ensures host == host' && s == t
  {
    FormatChars(s);
    FormatChars(t);
    var mid := ".consul.snapshot";
    assert StageName(host, s) == (host + mid) + ['.'] + Format(s);
    assert StageName(host', t) == (host' + mid) + ['.'] + Format(t);
    LastSplitUnique(host + mid, Format(s), host' + mid, Format(t), '.');
    SuffixCancel(host, host', mid);
    FormatInjective(s, t);
  }

  function Dated(date: Date): string {
    "/" + Format(date.year) + "/" + Format(date.month) + "/" + Format(date.day)
  }

  lemma ObjectKeyShape(prefix: string, date: Date, file: string)
    ensures ObjectKey(prefix, date, file) == (prefix + Dated(date)) + ['/'] + file
  {
    assert prefix + Dated(date) ==
      prefix + "/" + Format(date.year) + "/" + Format(date.month) + "/" + Format(date.day);
  }

  lemma SameKeySameFile(p: string, d: Date, f: string, p': string, d': Date, f': string)
    requires '/' !in f && '/' !in f'
    requires ObjectKey(p, d, f) == ObjectKey(p', d', f')
    ensures f == f' && p + Dated(d) == p' + Dated(d')
  {
    ObjectKeyShape(p, d, f);
    ObjectKeyShape(p', d', f');
    LastSplitUnique(p + Dated(d), f, p' + Dated(d'), f', '/');
  }

  // Distinct (prefix, host, start) give distinct objects, for any date function.
  lemma ObjectKeyInjective(date: int -> Date, p: string, h: string, s: int, p': string, h': string, t: int)
    requires '/' !in h && '/' !in h'
    requires ObjectKey(p, date(s), ArchiveName(h, s)) == ObjectKey(p', date(t), ArchiveName(h', t))
    ensures p == p' && h == h' && s == t
  {
    StageNameSimple(h, s);
    StageNameSimple(h', t);
    SameKeySameFile(p, date(s), ArchiveName(h, s), p', date(t), ArchiveName(h', t));
    SuffixCancel(StageName(h, s), StageName(h', t), TAR_GZ);
    StageNameInjective(h, s, h', t);
    SuffixCancel(p, p', Dated(date(s)));
  }

  // The object's base name is the archive's file name.
  lemma ObjectKeyBase(prefix: string, date: Date, file: string)
    requires Simple(file)
    ensures Base(ObjectKey(prefix, date, file)) == file
  {
    ObjectKeyShape(prefix, date, file);
    BaseOf(prefix + Dated(date) + "/", file);
  }

  // ---- Path stripping ----

  // Two occurrences of ".tar.gz" never overlap.
  lemma NoSelfOverlap(p: string, i: int)
    requires HasAt(p + TAR_GZ, TAR_GZ, i) && i < |p|
    ensures i + |TAR_GZ| <= |p|
  {
    var s := p + TAR_GZ;
    assert s[|p|] == '.' && s[|p| + 1] == 't';
    assert forall k :: 0 <= k < 7 ==> s[i + k] == TAR_GZ[k];
    if i + |TAR_GZ| > |p| {
      assert false;
    }
  }

  lemma RemoveFirstLength(s: string, sub: string)
    ensures Contains(s, sub) ==> |RemoveFirst(s, sub)| == |s| - |sub|
    ensures !Contains(s, sub) ==> RemoveFirst(s, sub) == s
  {
    var i := IndexFrom(s, sub, 0);
    if i == -1 {
      assert forall j :: HasAt(s, sub, j) ==> 0 <= j;
    } else {
      assert HasAt(s, sub, i);
    }
  }

  // An occurrence inside P: P has a ".gz", and so has what its removal leaves.
  lemma InnerOccurrence(p: string, i: int)
    requires HasAt(p + TAR_GZ, TAR_GZ, i) && i < |p|
    ensures HasAt(p, GZ, i + 4)
    ensures var s := p + TAR_GZ; HasAt(s[..i] + s[i + |TAR_GZ|..], GZ, |p| - 3)
  {
    var s := p + TAR_GZ;
    var t := s[..i] + s[i + |TAR_GZ|..];
    NoSelfOverlap(p, i);
    assert TAR_GZ[4..7] == GZ;
    assert forall k :: 0 <= k < 7 ==> s[i + k] == TAR_GZ[k] && s[|p| + k] == TAR_GZ[k];
    assert p[i + 4..i + 7] == GZ;
    assert t[|p| - 3..|p|] == s[|p| + 4..|p| + 7] == GZ;
  }

  // Stripping P + ".tar.gz" gives P back exactly when P has no ".gz" of its own.
  lemma StripExactIff(p: string)
    ensures StripSuffixes(p + TAR_GZ) == p <==> !Contains(p, GZ)
  {
    var s := p + TAR_GZ;
    assert HasAt(s, TAR_GZ, |p|);
    var i := IndexFrom(s, TAR_GZ, 0);
    RemoveFirstLength(RemoveFirst(s, TAR_GZ), GZ);
    if i == |p| {
      assert RemoveFirst(s, TAR_GZ) == p;
    } else {
      InnerOccurrence(p, i);
    }
  }
}
