/**
 The restore service undoes the backup service: what a backup lists is what a
 restore of its object replays, on any machine, over any store.
 */
module ServiceTrip {
  import opened Wrappers
  import opened Decimal
  import opened Paths
  import opened Names
  import opened Json
  import opened Members
  import opened Utf8
  import opened Records
  import opened Metadata
  import opened World
  import opened Config
  import opened ConsulClient
  import opened Archiver
  import opened ArchiveFacts
  import opened Snapshots
  import opened RestoreService
  import opened RestoreFacts
  import Float64
  import BackupService
  import BackupFacts

  // ---- Loading what is on disk ----

  lemma LoadKVOk(s: Sys, w: World, d: Draft, time: int, text: string, l: Slice<KVPair>)
    requires FaultFree(s) && w.alive && UnmarshalKVs(text) == Some(l)
    requires FileAt(w.fs, Resolve(s.cwd, d.extractedPath) + [DataName(KV, time)], text)
    ensures LoadKVSpec(s, w, d, time) == (Next(s, w), d.(kvData := l), true)
  {
    DataNameSimple(KV, time);
    ReadEffect(s, w, d.extractedPath, DataName(KV, time), text);
  }

  lemma LoadKVSkips(s: Sys, w: World, d: Draft, time: int)
    requires Resolve(s.cwd, d.extractedPath) + [DataName(KV, time)] !in w.fs.files
    ensures LoadKVSpec(s, w, d, time) == (Next(s, w), d, true)
  {
    DataNameSimple(KV, time);
    ResolveJoin(s.cwd, d.extractedPath, DataName(KV, time));
  }

  lemma LoadPQOk(s: Sys, w: World, d: Draft, time: int, text: string, l: Slice<PreparedQuery>)
    requires FaultFree(s) && w.alive && UnmarshalPQs(text) == Some(l)
    requires FileAt(w.fs, Resolve(s.cwd, d.extractedPath) + [DataName(PQ, time)], text)
    ensures LoadPQSpec(s, w, d, time) == (Next(s, w), d.(pqData := l), true)
  {
    DataNameSimple(PQ, time);
    ReadEffect(s, w, d.extractedPath, DataName(PQ, time), text);
  }

  lemma LoadPQSkips(s: Sys, w: World, d: Draft, time: int)
    requires Resolve(s.cwd, d.extractedPath) + [DataName(PQ, time)] !in w.fs.files
    ensures LoadPQSpec(s, w, d, time) == (Next(s, w), d, true)
  {
    DataNameSimple(PQ, time);
    ResolveJoin(s.cwd, d.extractedPath, DataName(PQ, time));
  }

  lemma LoadACLOk(s: Sys, w: World, d: Draft, time: int, text: string, l: Slice<ACLEntry>)
    requires FaultFree(s) && w.alive && UnmarshalACLs(text) == Some(l)
    requires FileAt(w.fs, Resolve(s.cwd, d.extractedPath) + [DataName(ACL, time)], text)
    ensures LoadACLSpec(s, w, d, time) == (Next(s, w), d.(aclData := l), true)
  {
    DataNameSimple(ACL, time);
    ReadEffect(s, w, d.extractedPath, DataName(ACL, time), text);
  }

  lemma LoadACLSkips(s: Sys, w: World, d: Draft, time: int)
    requires Resolve(s.cwd, d.extractedPath) + [DataName(ACL, time)] !in w.fs.files
    ensures LoadACLSpec(s, w, d, time) == (Next(s, w), d, true)
  {
    DataNameSimple(ACL, time);
    ResolveJoin(s.cwd, d.extractedPath, DataName(ACL, time));
  }

  // The lists a snapshot's files decode to, and the start time its metadata gives.
  ghost predicate Reads(c: Contents, kvs: Slice<KVPair>, pqs: Slice<PreparedQuery>, acls: Slice<ACLEntry>, time: int) {
    && UnmarshalKVs(c.kv) == Some(kvs) && UnmarshalPQs(c.pq) == Some(pqs) && UnmarshalACLs(c.acl) == Some(acls)
    && UnmarshalMap(c.meta).Some? && StartTimeOf(UnmarshalMap(c.meta).value) == Some(time)
  }

  lemma LoadMetadataOk(s: Sys, w: World, d: Draft, text: string)
    requires FaultFree(s) && w.alive && UnmarshalMap(text).Some?
    requires FileAt(w.fs, Resolve(s.cwd, d.extractedPath) + [META], text)
    ensures LoadMetadataSpec(s, w, d) == (Next(s, w), d.(metadata := UnmarshalMap(text).value), true)
  {
    DataNameSimple(KV, 0);
    ReadEffect(s, w, d.extractedPath, META, text);
  }

  lemma LoadMetadataMissing(s: Sys, w: World, d: Draft)
    requires Resolve(s.cwd, d.extractedPath) + [META] !in w.fs.files
    ensures LoadMetadataSpec(s, w, d) == (Next(s, w), d, false)
  {
    DataNameSimple(KV, 0);
    ResolveJoin(s.cwd, d.extractedPath, META);
  }

  lemma LoadDataReads(s: Sys, w: World, d: Draft, c: Contents, kvs: Slice<KVPair>, pqs: Slice<PreparedQuery>,
                      acls: Slice<ACLEntry>)
    requires FaultFree(s) && w.alive && At(w.fs, Resolve(s.cwd, d.extractedPath), c)
    requires Reads(c, kvs, pqs, acls, c.start) && StartTimeOf(d.metadata) == Some(c.start)
    ensures var r := LoadBackupDataSpec(s, w, d);
            r.0.alive && r.2 && r.1 == d.(kvData := kvs, pqData := pqs, aclData := acls)
  {
    LoadKVOk(s, w, d, c.start, c.kv, kvs);
    var k := LoadKVSpec(s, w, d, c.start);
    LoadPQOk(s, k.0, k.1, c.start, c.pq, pqs);
    var p := LoadPQSpec(s, k.0, k.1, c.start);
    LoadACLOk(s, p.0, p.1, c.start, c.acl, acls);
  }

  lemma LoadDataMisses(s: Sys, w: World, d: Draft, start: int, time: int)
    requires FaultFree(s) && w.alive && Sole(w.fs, Resolve(s.cwd, d.extractedPath), start) && time != start
    requires StartTimeOf(d.metadata) == Some(time)
    ensures var r := LoadBackupDataSpec(s, w, d); r.0.alive && r.2 && r.1 == d
  {
    LoadKVSkips(s, w, d, time);
    LoadPQSkips(s, Next(s, w), d, time);
    LoadACLSkips(s, Next(s, Next(s, w)), d, time);
  }

  // What loading a snapshot yields: its lists if the start time survives the
  // metadata, and otherwise, without any error, nothing.
  ghost predicate Loaded(r: (World, Draft, Outcome), exact: bool, kvs: Slice<KVPair>, pqs: Slice<PreparedQuery>,
                         acls: Slice<ACLEntry>) {
    r == (r.0.(alive := true),
          if exact then r.1.(kvData := kvs, pqData := pqs, aclData := acls)
          else r.1.(kvData := Nil, pqData := Nil, aclData := Nil),
          Completed)
  }

  predicate Blank(d: Draft) { d.kvData == Nil && d.pqData == Nil && d.aclData == Nil }

  lemma InspectReads(s: Sys, w: World, d: Draft, c: Contents, kvs: Slice<KVPair>, pqs: Slice<PreparedQuery>,
                     acls: Slice<ACLEntry>, time: int)
    requires FaultFree(s) && w.alive && At(w.fs, Resolve(s.cwd, d.extractedPath), c) && Blank(d)
    requires Reads(c, kvs, pqs, acls, time)
    requires time != c.start ==> Sole(w.fs, Resolve(s.cwd, d.extractedPath), c.start)
    ensures Loaded(InspectSpec(s, w, d), time == c.start, kvs, pqs, acls)
  {
    LoadMetadataOk(s, w, d, c.meta);
    var m := LoadMetadataSpec(s, w, d);
    if time == c.start {
      LoadDataReads(s, m.0, m.1, c, kvs, pqs, acls);
    } else {
      LoadDataMisses(s, m.0, m.1, c.start, time);
    }
  }

  // ---- Unpacking ----

  lemma UnTarGzLands(s: Sys, w: World, src: string, dest: string, q: Path, es: seq<Entry>)
    requires Lawful(s) && FaultFree(s) && w.alive && q == Resolve(s.cwd, dest)
    requires FileAt(w.fs, Resolve(s.cwd, src), s.gzip(s.tar(es)))
    requires Coherent(es) && Accepts(w.fs, q, es)
    ensures var r := Extract(s, Next(s, w), q, es);
            UnTarGzSpec(s, w, src, dest) == r && r.1 && r.0.alive
  {
    ExtractOk(s, Next(s, w), q, es);
    assert s.untar(s.tar(es)) == Tape(es, true);
  }

  lemma ExtractIs(s: Sys, w: World, d: Draft, q: Path, es: seq<Entry>)
    requires Lawful(s) && FaultFree(s) && w.alive && Coherent(es) && Accepts(w.fs, q, es)
    requires FileAt(w.fs, Resolve(s.cwd, d.localPath), s.gzip(s.tar(es)))
    requires q == Resolve(s.cwd, d.localPath + EXTRACTED)
    ensures var r := Extract(s, Next(s, Made(s, w, q)), q, es);
            r.1 && ExtractSpec(s, w, d) == (r.0.(alive := true), d.(extractedPath := d.localPath + EXTRACTED), true)
  {
    AcceptsMkdir(w.fs, q, es);
    AcceptsDirs(w.fs, q, es, q);
    UnTarGzLands(s, Made(s, w, q), d.localPath, d.localPath + EXTRACTED, q, es);
  }

  // An unpacked archive: where the snapshot is.
  ghost predicate Landed(fs: Fs, q: Path, prefix: Path, c: Contents, sole: bool) {
    At(fs, q + prefix, c) && (sole ==> Sole(fs, q + prefix, c.start))
  }

  lemma ExtractPuts(s: Sys, w: World, q: Path, es: seq<Entry>, prefix: Path, c: Contents, sole: bool)
    requires Carries(es, prefix, c) && Extract(s, w, q, es).1
    requires sole ==> Only(es, prefix, c.start) && Sole(w.fs, q + prefix, c.start)
    ensures Landed(Extract(s, w, q, es).0.fs, q, prefix, c, sole)
  {
    UnpackAt(s, w, q, es, prefix, c);
    if sole {
      UnpackSole(s, w, q, es, prefix, c.start);
    }
  }

  // The archive beside the draft's extraction directory, which accepts it.
  ghost predicate Waiting(s: Sys, w: World, d: Draft, q: Path, data: string, prefix: Path, c: Contents, sole: bool) {
    && Lawful(s) && FaultFree(s) && w.alive && IsArchive(s, data, prefix, c, sole)
    && FileAt(w.fs, Resolve(s.cwd, d.localPath), data) && q == Resolve(s.cwd, d.localPath + EXTRACTED)
    && Accepts(w.fs, q, Inside(s, data))
    && (sole ==> Sole(w.fs, q + prefix, c.start))
  }

  lemma ExtractLands(s: Sys, w: World, d: Draft, q: Path, data: string, prefix: Path, c: Contents, sole: bool)
    requires Waiting(s, w, d, q, data, prefix, c, sole)
    ensures var r := ExtractSpec(s, w, d); r.2 && r.0.alive && Landed(r.0.fs, q, prefix, c, sole)
  {
    var es := Inside(s, data);
    ArchiveMembers(s, data, prefix, c, sole);
    ExtractIs(s, w, d, q, es);
    ExtractPuts(s, Next(s, Made(s, w, q)), q, es, prefix, c, sole);
  }

  // Where the reader looks for the metadata there is none in a nested archive.
  lemma NestedHidesMeta(s: Sys, w: World, dest: Path, es: seq<Entry>, dir: string)
    requires (forall i :: 0 <= i < |es| ==> [dir] <= es[i].name) && dir != META && dest + [META] !in w.fs.files
    ensures dest + [META] !in Extract(s, w, dest, es).0.fs.files
  {
    forall i | 0 <= i < |es| ensures dest + es[i].name != dest + [META] {
      assert (dest + es[i].name)[|dest|] == dir && (dest + [META])[|dest|] == META;
    }
    ExtractElsewhere(s, w, dest, es, dest + [META]);
  }

  lemma ExtractHides(s: Sys, w: World, d: Draft, q: Path, data: string, dir: string, c: Contents)
    requires Waiting(s, w, d, q, data, [dir], c, false) && dir != META && q + [META] !in w.fs.files
    ensures var r := ExtractSpec(s, w, d); r.2 && q + [META] !in r.0.fs.files
  {
    var es := Inside(s, data);
    ArchiveMembers(s, data, [dir], c, false);
    ExtractIs(s, w, d, q, es);
    NestedHidesMeta(s, Next(s, Made(s, w, q)), q, es, dir);
  }

  lemma InspectLanded(s: Sys, w: World, d: Draft, q: Path, c: Contents, kvs: Slice<KVPair>, pqs: Slice<PreparedQuery>,
                      acls: Slice<ACLEntry>, time: int, sole: bool)
    requires FaultFree(s) && w.alive && Blank(d) && q == Resolve(s.cwd, d.extractedPath)
    requires Landed(w.fs, q, [], c, sole) && Reads(c, kvs, pqs, acls, time) && (time != c.start ==> sole)
    ensures Loaded(InspectSpec(s, w, d), time == c.start, kvs, pqs, acls)
  {
    assert q + [] == q;
    InspectReads(s, w, d, c, kvs, pqs, acls, time);
  }

  lemma LoadFlat(s: Sys, w: World, d: Draft, q: Path, data: string, c: Contents, kvs: Slice<KVPair>,
                 pqs: Slice<PreparedQuery>, acls: Slice<ACLEntry>, time: int, sole: bool, x: (World, Draft, bool))
    requires Waiting(s, w, d, q, data, [], c, sole) && Blank(d)
    requires Reads(c, kvs, pqs, acls, time) && (time != c.start ==> sole) && x == ExtractSpec(s, w, d)
    ensures x.2 && Loaded(InspectSpec(s, x.0, x.1), time == c.start, kvs, pqs, acls)
  {
    ExtractLands(s, w, d, q, data, [], c, sole);
    ExtractSpecFrame(s, w, d);
    InspectLanded(s, x.0, x.1, q, c, kvs, pqs, acls, time, sole);
  }

  lemma LoadNested(s: Sys, w: World, d: Draft, q: Path, data: string, dir: string, c: Contents)
    requires Waiting(s, w, d, q, data, [dir], c, false) && dir != META && q + [META] !in w.fs.files
    ensures LoadSpec(s, w, d).2 == Stopped(Inspecting)
  {
    ExtractHides(s, w, d, q, data, dir, c);
    ExtractSpecFrame(s, w, d);
    var x := ExtractSpec(s, w, d);
    LoadMetadataMissing(s, x.0, x.1);
  }

  // ---- Downloading ----

  // Where a run unpacks the object.
  function ExtractedAt(s: Sys, cfg: Config, path: string): Path {
    Resolve(s.cwd, cfg.tmpDir) + [Base(path) + EXTRACTED]
  }

  // Nothing stands in the way of a restore of this object.
  predicate Ready(s: Sys, w: World, cfg: Config, path: string) {
    var tmp, file := Resolve(s.cwd, cfg.tmpDir), Base(path);
    && w.alive && !cfg.acceptance && BackupFacts.HasPlace(cfg) && (BackupService.PlaceOf(cfg), path) in w.objects
    && Simple(file) && tmp in w.fs.dirs && tmp + [file] !in w.fs.dirs
    && Accepts(w.fs, ExtractedAt(s, cfg, path), Inside(s, w.objects[(BackupService.PlaceOf(cfg), path)]))
  }

  lemma ExtractedSimple(file: string)
    requires Simple(file)
    ensures Simple(file + EXTRACTED) && file != file + EXTRACTED
  {
    assert |file + EXTRACTED| == |file| + 10;
  }

  lemma DownloadOk(s: Sys, w: World, cfg: Config, path: string, at: Path, data: string)
    requires FaultFree(s) && Ready(s, w, cfg, path)
    requires data == w.objects[(BackupService.PlaceOf(cfg), path)] && at == Resolve(s.cwd, cfg.tmpDir) + [Base(path)]
    ensures var r := DownloadSpec(s, w, cfg, path);
            && r.0.alive && r.1 == Some(NewDraft(path).(localPath := Join(cfg.tmpDir, Base(path))))
            && Resolve(s.cwd, r.1.value.localPath) == at && r.0.fs == Put(w.fs, at, data)
  {
    ResolveJoin(s.cwd, cfg.tmpDir, Base(path));
    assert at[..|at| - 1] == Resolve(s.cwd, cfg.tmpDir);
  }

  lemma PutBeside(fs: Fs, tmp: Path, a: string, b: string, es: seq<Entry>, data: string, start: int)
    requires a != b && Accepts(fs, tmp + [b], es)
    ensures Accepts(Put(fs, tmp + [a], data), tmp + [b], es)
    ensures Sole(fs, tmp + [b], start) ==> Sole(Put(fs, tmp + [a], data), tmp + [b], start)
    ensures var m := tmp + [b] + [META]; m in Put(fs, tmp + [a], data).files ==> m in fs.files
  {
    forall i | 0 <= i < |es| ensures !(tmp + [a] <= tmp + [b] + es[i].name) {
      Siblings(tmp, a, b, es[i].name);
    }
    AcceptsPut(fs, tmp + [b], es, tmp + [a], data);
    assert forall n: string :: |tmp + [b] + [n]| == |tmp| + 2;
  }

  // ---- Replaying ----

  // The store with a snapshot's lists replayed over it.
  function Over(m: Store, kvs: Slice<KVPair>, pqs: Slice<PreparedQuery>, acls: Slice<ACLEntry>): Store {
    Store(Overlay(m.kv, kvs.Elems()), m.pqs + pqs.Elems(), m.acls + acls.Elems())
  }

  lemma ReplayedAll(before: Store, after: Store, d: Draft)
    requires Replayed(before, after, d, d.kvData.Len(), d.pqData.Len(), d.aclData.Len())
    ensures after == Over(before, d.kvData, d.pqData, d.aclData)
  {
    assert d.kvData.Elems()[..d.kvData.Len()] == d.kvData.Elems();
    assert d.pqData.Elems()[..d.pqData.Len()] == d.pqData.Elems();
    assert d.aclData.Elems()[..d.aclData.Len()] == d.aclData.Elems();
  }

  lemma ReplayDone(s: Sys, w: World, d: Draft)
    requires FineFrom(s, w.calls) && w.alive
    ensures KeysDone(s, w, d) == d.kvData.Len() && PQsDone(s, w, d) == d.pqData.Len()
    ensures ACLsDone(s, w, d) == d.aclData.Len()
  {
    var kvs, pqs := d.kvData.Elems(), d.pqData.Elems();
    StreakFine(s, w, |kvs|);
    ReplayKeysPrefix(s, w, kvs);
    ReplayKeysFrame(s, w, kvs);
    var k := ReplayKeys(s, w, kvs).0;
    StreakFine(s, k, |pqs|);
    ReplayPQsPrefix(s, k, pqs);
    ReplayPQsFrame(s, k, pqs);
    StreakFine(s, ReplayPQs(s, k, pqs).0, d.aclData.Len());
  }

  lemma FinishOk(s: Sys, w: World, d: Draft)
    requires FineFrom(s, w.calls) && w.alive
    ensures var r := FinishSpec(s, w, d);
            r.1 == Completed && r.0.consul == Over(w.consul, d.kvData, d.pqData, d.aclData)
  {
    ReplayDone(s, w, d);
    RestoreToConsulMeaning(s, w, d);
    var r := RestoreToConsulSpec(s, w, d);
    ReplayedAll(w.consul, r.0.consul, d);
    CleanupFrame(s, r.0, d);
  }

  lemma OverNothing(m: Store)
    ensures Over(m, Nil, Nil, Nil) == m
  {}

  // A restore that has downloaded a flat archive of a snapshot.
  lemma UnpackFlat(s: Sys, w: World, d: Draft, q: Path, data: string, c: Contents, kvs: Slice<KVPair>,
                   pqs: Slice<PreparedQuery>, acls: Slice<ACLEntry>, time: int, sole: bool)
    requires Waiting(s, w, d, q, data, [], c, sole) && Blank(d)
    requires Reads(c, kvs, pqs, acls, time) && (time != c.start ==> sole)
    ensures UnpackSpec(s, w, d).1 == Completed
    ensures UnpackSpec(s, w, d).0.consul == if time == c.start then Over(w.consul, kvs, pqs, acls) else w.consul
  {
    var x := ExtractSpec(s, w, d);
    LoadFlat(s, w, d, q, data, c, kvs, pqs, acls, time, sole, x);
    ExtractSpecFrame(s, w, d);
    var l := InspectSpec(s, x.0, x.1);
    InspectFrame(s, x.0, x.1);
    FinishOk(s, l.0, l.1);
    OverNothing(w.consul);
  }

  lemma UnpackNested(s: Sys, w: World, d: Draft, q: Path, data: string, dir: string, c: Contents)
    requires Waiting(s, w, d, q, data, [dir], c, false) && dir != META && q + [META] !in w.fs.files
    ensures UnpackSpec(s, w, d).1 == Stopped(Inspecting)
  {
    LoadNested(s, w, d, q, data, dir, c);
    UnpackStops(s, w, d, LoadSpec(s, w, d).2);
  }

  lemma UnpackStops(s: Sys, w: World, d: Draft, o: Outcome)
    requires LoadSpec(s, w, d).2 == o && o != Completed
    ensures UnpackSpec(s, w, d).1 == o
  {}

  // ---- The round trip ----

  lemma RunIsUnpack(s: Sys, w: World, cfg: Config, path: string, got: (World, Option<Draft>))
    requires got == DownloadSpec(s, w, cfg, path) && got.1.Some?
    ensures RunRestoreSpec(s, w, cfg, path) == UnpackSpec(s, got.0, got.1.value)
  {}

  // What a completed download leaves for the rest of the run.
  lemma Downloaded(s: Sys, w: World, cfg: Config, path: string, data: string, prefix: Path, c: Contents, sole: bool,
                   q: Path, got: (World, Option<Draft>))
    requires Lawful(s) && FaultFree(s) && Ready(s, w, cfg, path)
    requires data == w.objects[(BackupService.PlaceOf(cfg), path)] && IsArchive(s, data, prefix, c, sole)
    requires q == ExtractedAt(s, cfg, path) && got == DownloadSpec(s, w, cfg, path)
    requires sole ==> prefix == [] && Sole(w.fs, q, c.start)
    ensures got.0.consul == w.consul && got.1.Some? && Blank(got.1.value)
    ensures Waiting(s, got.0, got.1.value, q, data, prefix, c, sole)
    ensures q + [META] in got.0.fs.files ==> q + [META] in w.fs.files
  {
    DownloadOk(s, w, cfg, path, Resolve(s.cwd, cfg.tmpDir) + [Base(path)], data);
    DownloadFrame(s, w, cfg, path);
    PutWaits(s, w, cfg, path, data, prefix, c, sole, q, got.0, got.1.value);
    assert |q + [META]| == |Resolve(s.cwd, cfg.tmpDir)| + 2;
  }

  lemma PutWaits(s: Sys, w: World, cfg: Config, path: string, data: string, prefix: Path, c: Contents, sole: bool,
                 q: Path, a: World, d: Draft)
    requires Lawful(s) && FaultFree(s) && Simple(Base(path)) && Accepts(w.fs, q, Inside(s, data))
    requires IsArchive(s, data, prefix, c, sole) && q == ExtractedAt(s, cfg, path)
    requires sole ==> prefix == [] && Sole(w.fs, q, c.start)
    requires a.alive && a.fs == Put(w.fs, Resolve(s.cwd, cfg.tmpDir) + [Base(path)], data)
    requires d == NewDraft(path).(localPath := Join(cfg.tmpDir, Base(path)))
    ensures Waiting(s, a, d, q, data, prefix, c, sole)
  {
    var tmp, file := Resolve(s.cwd, cfg.tmpDir), Base(path);
    DownloadPlaces(s, cfg, file);
    PutBeside(w.fs, tmp, file, file + EXTRACTED, Inside(s, data), data, c.start);
    assert q + [] == q;
  }

  lemma DownloadPlaces(s: Sys, cfg: Config, file: string)
    requires Simple(file)
    ensures file != file + EXTRACTED
    ensures var local := Join(cfg.tmpDir, file);
            && Resolve(s.cwd, local) == Resolve(s.cwd, cfg.tmpDir) + [file]
            && Resolve(s.cwd, local + EXTRACTED) == Resolve(s.cwd, cfg.tmpDir) + [file + EXTRACTED]
  {
    ExtractedSimple(file);
    ResolveJoin(s.cwd, cfg.tmpDir, file);
    JoinSuffix(s.cwd, cfg.tmpDir, file, EXTRACTED);
  }

  lemma RestoreFlat(s: Sys, w: World, cfg: Config, path: string, data: string, c: Contents, kvs: Slice<KVPair>,
                    pqs: Slice<PreparedQuery>, acls: Slice<ACLEntry>, time: int, sole: bool)
    requires Lawful(s) && FaultFree(s) && Ready(s, w, cfg, path)
    requires data == w.objects[(BackupService.PlaceOf(cfg), path)]
    requires IsArchive(s, data, [], c, sole) && Reads(c, kvs, pqs, acls, time) && (time != c.start ==> sole)
    requires sole ==> Sole(w.fs, ExtractedAt(s, cfg, path), c.start)
    ensures var r := RunRestoreSpec(s, w, cfg, path);
            r.1 == Completed && r.0.consul == if time == c.start then Over(w.consul, kvs, pqs, acls) else w.consul
  {
    var got := DownloadSpec(s, w, cfg, path);
    Downloaded(s, w, cfg, path, data, [], c, sole, ExtractedAt(s, cfg, path), got);
    RunIsUnpack(s, w, cfg, path, got);
    UnpackFlat(s, got.0, got.1.value, ExtractedAt(s, cfg, path), data, c, kvs, pqs, acls, time, sole);
  }

  lemma RestoreNested(s: Sys, w: World, cfg: Config, path: string, data: string, dir: string, c: Contents)
    requires Lawful(s) && FaultFree(s) && Ready(s, w, cfg, path)
    requires data == w.objects[(BackupService.PlaceOf(cfg), path)]
    requires IsArchive(s, data, [dir], c, false) && dir != META
    requires ExtractedAt(s, cfg, path) + [META] !in w.fs.files
    ensures RunRestoreSpec(s, w, cfg, path).1 == Stopped(Inspecting)
  {
    var got := DownloadSpec(s, w, cfg, path);
    Downloaded(s, w, cfg, path, data, [dir], c, false, ExtractedAt(s, cfg, path), got);
    RunIsUnpack(s, w, cfg, path, got);
    UnpackNested(s, got.0, got.1.value, ExtractedAt(s, cfg, path), data, dir, c);
  }

  // What a reader makes of the four files a backup stages.
  lemma TakenReads(s: Sys, cfg: Config, d: BackupService.Draft, end: int64)
    requires d.kvJson == MarshalKVs(d.kvData) && d.pqJson == MarshalPQs(d.pqData) && d.aclJson == MarshalACLs(d.aclData)
    ensures Reads(BackupFacts.ContentsOf(s, cfg, d, end), CleanKVs(d.kvData), CleanPQs(d.pqData), CleanACLs(d.aclData),
                  Float64.Round(d.startTime))
  {
    KVListTrip(d.kvData);
    PQListTrip(d.pqData);
    ACLListTrip(d.aclData);
    var m := BackupFacts.MetaFor(s, cfg, d.startTime, BackupFacts.DataOf(d), end);
    ServiceMetaTrip(m);
    ServiceMapHolds(m);
  }

  // The checksums a reader finds are those of the files beside the metadata.
  lemma TakenChecksums(s: Sys, cfg: Config, d: BackupService.Draft, end: int64, k: Contents, m: Fields)
    requires k == BackupFacts.ContentsOf(s, cfg, d, end) && UnmarshalMap(k.meta) == Some(m)
    requires forall b: string :: Valid(s.sha256(b))
    ensures StringOf(Get(m, SERVICE.kvSum)) == Some(s.sha256(k.kv))
    ensures StringOf(Get(m, SERVICE.pqSum)) == Some(s.sha256(k.pq))
    ensures StringOf(Get(m, SERVICE.aclSum)) == Some(s.sha256(k.acl))
  {
    var f := BackupFacts.MetaFor(s, cfg, d.startTime, BackupFacts.DataOf(d), end);
    ServiceMetaTrip(f);
    ServiceMapHolds(f);
    SanitizeExactIff(s.sha256(k.kv));
    SanitizeExactIff(s.sha256(k.pq));
    SanitizeExactIff(s.sha256(k.acl));
  }

  // b: a completed backup, whatever failed on the way. w: any later world, over
  // any store, on a machine with a directory and settings of its own, that still
  // has the backup's object and is free to restore it. z: a process there whose
  // calls do not fail.
  ghost predicate Follows(s: Sys, start: World, cfg: Config, c: Client, time: int64, end: int64,
                          b: (World, Client, Outcome), z: Sys, w: World, cfg': Config, path: string) {
    && Lawful(s) && Tree(start.fs) && '/' !in cfg.hostname && !cfg.acceptance
    && b == BackupService.RunBackupSpec(s, start, cfg, c, time, end) && b.2 == Completed
    && BackupFacts.HasPlace(cfg) && BackupFacts.HasPlace(cfg')
       && BackupService.PlaceOf(cfg') == BackupService.PlaceOf(cfg) && path == BackupFacts.Target(s, cfg, time).1
    && z == Calm(s, z.cwd) && Ready(z, w, cfg', path)
    && ((BackupService.PlaceOf(cfg), path) in b.0.objects ==>
       w.objects[(BackupService.PlaceOf(cfg), path)] == b.0.objects[(BackupService.PlaceOf(cfg), path)])
  }

  lemma BackupArchive(s: Sys, w: World, cfg: Config, c: Client, start: int64, end: int64, b: (World, Client, Outcome),
                      sole: bool)
    requires Lawful(s) && Tree(w.fs) && '/' !in cfg.hostname && !cfg.acceptance && BackupFacts.HasPlace(cfg)
    requires b == BackupService.RunBackupSpec(s, w, cfg, c, start, end) && b.2 == Completed
    requires sole ==> Fresh(w.fs, BackupFacts.StageAt(s, cfg, start))
    ensures var k := BackupFacts.Target(s, cfg, start);
            var prefix := PrefixOf(s.layout, BackupFacts.StageDir(cfg, start));
            k in b.0.objects && IsArchive(s, b.0.objects[k], prefix, BackupFacts.Taken(s, w, cfg, start, end), sole)
  {
    BackupFacts.RunBackupMeaning(s, w, cfg, c, start, end);
    var prefix := PrefixOf(s.layout, BackupFacts.StageDir(cfg, start));
    LessSole(s, b.0.objects[BackupFacts.Target(s, cfg, start)], prefix, BackupFacts.Taken(s, w, cfg, start, end),
             Fresh(w.fs, BackupFacts.StageAt(s, cfg, start)), sole);
  }

  lemma LessSole(s: Sys, data: string, prefix: Path, c: Contents, sole: bool, less: bool)
    requires IsArchive(s, data, prefix, c, sole) && (less ==> sole)
    ensures IsArchive(s, data, prefix, c, less)
  {}

  // What a restore that follows a backup has before it.
  lemma FollowsHolds(s: Sys, start: World, cfg: Config, c: Client, time: int64, end: int64, b: (World, Client, Outcome),
                     z: Sys, w: World, cfg': Config, path: string, sole: bool, data: string)
    requires Follows(s, start, cfg, c, time, end, b, z, w, cfg', path)
    requires sole ==> Fresh(start.fs, BackupFacts.StageAt(s, cfg, time))
    requires data == w.objects[(BackupService.PlaceOf(cfg'), path)]
    ensures var prefix := PrefixOf(s.layout, BackupFacts.StageDir(cfg, time));
            && Lawful(z) && FaultFree(z)
            && IsArchive(z, data, prefix, BackupFacts.Taken(s, start, cfg, time, end), sole)
  {
    BackupArchive(s, start, cfg, c, time, end, b, sole);
    var prefix := PrefixOf(s.layout, BackupFacts.StageDir(cfg, time));
    CalmArchive(s, z, data, prefix, BackupFacts.Taken(s, start, cfg, time, end), sole);
  }

  // The three lists a run that starts in w takes.
  datatype Lists3 = Lists3(kvs: Slice<KVPair>, pqs: Slice<PreparedQuery>, acls: Slice<ACLEntry>)

  function ListedBy(s: Sys, w: World): Lists3 {
    Lists3(s.keys(w.consul, w.calls), s.pqs(w.consul, w.calls + 1), s.acls(w.consul, w.calls + 2))
  }

  function CleanLists(d: Lists3): Lists3 { Lists3(CleanKVs(d.kvs), CleanPQs(d.pqs), CleanACLs(d.acls)) }

  lemma TakenBy(s: Sys, w: World, cfg: Config, start: int64, end: int64, d: Lists3, k: Contents)
    requires d == CleanLists(ListedBy(s, w)) && k == BackupFacts.Taken(s, w, cfg, start, end)
    ensures Reads(k, d.kvs, d.pqs, d.acls, Float64.Round(start)) && k.start == start
  {
    TakenReads(s, cfg, BackupService.SerializeSpec(BackupFacts.Listed(s, w, start)), end);
  }

  // Restoring a backup's object replays the backup's lists over the store, if
  // float64 holds the start time exactly. If not, and with no files of other
  // snapshots about, it completes and restores nothing.
  lemma ServiceRoundTrip(s: Sys, start: World, cfg: Config, c: Client, time: int64, end: int64,
                         b: (World, Client, Outcome), z: Sys, w: World, cfg': Config, path: string, d: Lists3)
    requires s.layout.Flat? && Follows(s, start, cfg, c, time, end, b, z, w, cfg', path)
    requires d == CleanLists(ListedBy(s, start))
    requires Float64.Representable(time) ||
             (Fresh(start.fs, BackupFacts.StageAt(s, cfg, time)) && Fresh(w.fs, ExtractedAt(z, cfg', path)))
    ensures var r := RunRestoreSpec(z, w, cfg', path);
            && r.1 == Completed
            && r.0.consul == (if Float64.Representable(time) then Over(w.consul, d.kvs, d.pqs, d.acls) else w.consul)
  {
    var sole := !Float64.Representable(time);
    var k, data := BackupFacts.Taken(s, start, cfg, time, end), w.objects[(BackupService.PlaceOf(cfg'), path)];
    FollowsHolds(s, start, cfg, c, time, end, b, z, w, cfg', path, sole, data);
    TakenBy(s, start, cfg, time, end, d, k);
    if sole {
      FreshSole(w.fs, ExtractedAt(z, cfg', path), time);
    }
    Float64.RoundExactIff(time);
    RestoreFlat(z, w, cfg', path, data, k, d.kvs, d.pqs, d.acls, Float64.Round(time), sole);
  }

  // With start times up to 2^53 and text that is valid UTF-8 the very records
  // listed come back, every byte of every value, every field of every query.
  lemma ServiceRestoresExactly(s: Sys, start: World, cfg: Config, c: Client, time: int64, end: int64,
                               b: (World, Client, Outcome), z: Sys, w: World, cfg': Config, path: string, d: Lists3)
    requires s.layout.Flat? && Follows(s, start, cfg, c, time, end, b, z, w, cfg', path)
    requires 0 <= time <= Float64.P53 && d == ListedBy(s, start) && ValidLists(d)
    ensures var r := RunRestoreSpec(z, w, cfg', path).0.consul;
            && r == Over(w.consul, d.kvs, d.pqs, d.acls)
            && LaidOver(w.consul.kv, r.kv, d.kvs.Elems())
  {
    OverlayIsLaid(w.consul.kv, d.kvs.Elems());
    var k, data := BackupFacts.Taken(s, start, cfg, time, end), w.objects[(BackupService.PlaceOf(cfg'), path)];
    TakenExactly(s, start, cfg, time, end, d, k);
    FollowsHolds(s, start, cfg, c, time, end, b, z, w, cfg', path, false, data);
    RestoreFlat(z, w, cfg', path, data, k, d.kvs, d.pqs, d.acls, time, false);
  }

  // The lists hold exactly what the store holds.
  ghost predicate Tell(d: Lists3, m: Store) {
    Tells(d.kvs.Elems(), m.kv) && d.pqs.Elems() == m.pqs && d.acls.Elems() == m.acls
  }

  lemma OverCopiesIff(base: Store, d: Lists3, m: Store)
    requires Tell(d, m)
    ensures Over(base, d.kvs, d.pqs, d.acls) == m <==>
            base.kv.Keys <= m.kv.Keys && base.pqs == [] && base.acls == []
  {
    OverlayCopiesIff(base.kv, d.kvs.Elems(), m.kv);
    assert |base.pqs + m.pqs| == |base.pqs| + |m.pqs| && |base.acls + m.acls| == |base.acls| + |m.acls|;
    assert base.pqs == [] ==> base.pqs + m.pqs == m.pqs;
    assert base.acls == [] ==> base.acls + m.acls == m.acls;
  }

  // If Consul's listings are complete, a restore makes any store with no keys,
  // queries or ACLs of its own the very store that was backed up; and no other.
  lemma ServiceCopiesStore(s: Sys, start: World, cfg: Config, c: Client, time: int64, end: int64,
                           b: (World, Client, Outcome), z: Sys, w: World, cfg': Config, path: string, d: Lists3)
    requires s.layout.Flat? && Follows(s, start, cfg, c, time, end, b, z, w, cfg', path)
    requires 0 <= time <= Float64.P53 && d == ListedBy(s, start) && ValidLists(d) && Tell(d, start.consul)
    ensures RunRestoreSpec(z, w, cfg', path).0.consul == start.consul <==>
            w.consul.kv.Keys <= start.consul.kv.Keys && w.consul.pqs == [] && w.consul.acls == []
  {
    ServiceRestoresExactly(s, start, cfg, c, time, end, b, z, w, cfg', path, d);
    OverCopiesIff(w.consul, d, start.consul);
  }

  lemma TakenExactly(s: Sys, w: World, cfg: Config, start: int64, end: int64, d: Lists3, k: Contents)
    requires 0 <= start <= Float64.P53 && d == ListedBy(s, w) && ValidLists(d)
    requires k == BackupFacts.Taken(s, w, cfg, start, end)
    ensures Reads(k, d.kvs, d.pqs, d.acls, start) && k.start == start
  {
    CleanListsExactIff(d);
    TakenBy(s, w, cfg, start, end, d, k);
    Float64.SmallIntegersExact(start);
    Float64.RoundExactIff(start);
  }

  predicate ValidLists(d: Lists3) { ValidKVs(d.kvs) && ValidPQs(d.pqs) && ValidACLs(d.acls) }

  lemma CleanListsExactIff(d: Lists3)
    ensures CleanLists(d) == d <==> ValidLists(d)
  {
    CleanKVsExactIff(d.kvs);
    CleanPQsExactIff(d.pqs);
    CleanACLsExactIff(d.acls);
  }

  // With archives that nest their members, no backup can be restored: with no
  // stray metadata about, the run stops looking for it (and so, by
  // LoadBeforeWrite, leaves Consul alone).
  lemma ServiceNestedStops(s: Sys, start: World, cfg: Config, c: Client, time: int64, end: int64,
                           b: (World, Client, Outcome), z: Sys, w: World, cfg': Config, path: string)
    requires s.layout.Nested? && Follows(s, start, cfg, c, time, end, b, z, w, cfg', path)
    requires ExtractedAt(z, cfg', path) + [META] !in w.fs.files
    ensures RunRestoreSpec(z, w, cfg', path).1 == Stopped(Inspecting)
  {
    var k, data := BackupFacts.Taken(s, start, cfg, time, end), w.objects[(BackupService.PlaceOf(cfg'), path)];
    NestedPrefix(s, cfg, time);
    FollowsHolds(s, start, cfg, c, time, end, b, z, w, cfg', path, false, data);
    RestoreNested(z, w, cfg', path, data, StageName(cfg.hostname, time), k);
  }

  lemma NestedPrefix(s: Sys, cfg: Config, start: int)
    requires s.layout.Nested? && '/' !in cfg.hostname
    ensures PrefixOf(s.layout, BackupFacts.StageDir(cfg, start)) == [StageName(cfg.hostname, start)]
    ensures StageName(cfg.hostname, start) != META
  {
    BackupFacts.TempNames(s, cfg, start);
    StageIsNotMeta(cfg.hostname, start);
  }

  lemma StageIsNotMeta(host: string, start: int)
    ensures StageName(host, start) != META
  {
    assert |StageName(host, start)| >= 17;
  }

  // A download goes to the path the backup archived to.
  lemma DownloadPath(s: Sys, cfg: Config, start: int)
    requires '/' !in cfg.hostname && !cfg.acceptance && BackupFacts.HasPlace(cfg)
    ensures Join(cfg.tmpDir, Base(BackupFacts.Target(s, cfg, start).1)) == BackupService.ArchivePath(cfg, start)
  {
    StageNameSimple(cfg.hostname, start);
    var file := ArchiveName(cfg.hostname, start);
    BaseJoin(cfg.tmpDir, file);
    ObjectKeyBase(if cfg.objectPrefix == "" then "backups" else cfg.objectPrefix, s.date(start), file);
  }
}
