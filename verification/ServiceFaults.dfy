/**
 The restore service when things go wrong: data files that cannot be read are
 skipped in silence, and a run that died can be repeated.
 */
module ServiceFaults {
  import opened Wrappers
  import opened Decimal
  import opened Paths
  import opened Names
  import opened Records
  import opened Metadata
  import opened World
  import opened Config
  import opened ConsulClient
  import opened Archiver
  import opened ArchiveFacts
  import opened Trees
  import opened Snapshots
  import opened RestoreService
  import opened RestoreFacts
  import opened ServiceTrip
  import Float64
  import BackupService
  import BackupFacts

  // ---- Which lists are loaded ----

  // A list is loaded if the call that reads its file goes through, and otherwise
  // left out.
  function IfRead<T>(s: Sys, w: World, l: Slice<T>): Slice<T> { if Up(s, w) then l else Nil }

  lemma LoadKVEither(s: Sys, w: World, d: Draft, time: int, text: string, l: Slice<KVPair>)
    requires FileAt(w.fs, Resolve(s.cwd, d.extractedPath) + [DataName(KV, time)], text)
    requires UnmarshalKVs(text) == Some(l) && d.kvData == Nil
    ensures LoadKVSpec(s, w, d, time) == (Next(s, w), d.(kvData := IfRead(s, w, l)), true)
  {
    DataNameSimple(KV, time);
    ResolveJoin(s.cwd, d.extractedPath, DataName(KV, time));
  }

  lemma LoadPQEither(s: Sys, w: World, d: Draft, time: int, text: string, l: Slice<PreparedQuery>)
    requires FileAt(w.fs, Resolve(s.cwd, d.extractedPath) + [DataName(PQ, time)], text)
    requires UnmarshalPQs(text) == Some(l) && d.pqData == Nil
    ensures LoadPQSpec(s, w, d, time) == (Next(s, w), d.(pqData := IfRead(s, w, l)), true)
  {
    DataNameSimple(PQ, time);
    ResolveJoin(s.cwd, d.extractedPath, DataName(PQ, time));
  }

  lemma LoadACLEither(s: Sys, w: World, d: Draft, time: int, text: string, l: Slice<ACLEntry>)
    requires FileAt(w.fs, Resolve(s.cwd, d.extractedPath) + [DataName(ACL, time)], text)
    requires UnmarshalACLs(text) == Some(l) && d.aclData == Nil
    ensures LoadACLSpec(s, w, d, time) == (Next(s, w), d.(aclData := IfRead(s, w, l)), true)
  {
    DataNameSimple(ACL, time);
    ResolveJoin(s.cwd, d.extractedPath, DataName(ACL, time));
  }

  lemma LoadFamiliesEither(s: Sys, w: World, d: Draft, c: Contents, kvs: Slice<KVPair>, pqs: Slice<PreparedQuery>,
                           acls: Slice<ACLEntry>)
    requires At(w.fs, Resolve(s.cwd, d.extractedPath), c) && Blank(d)
    requires UnmarshalKVs(c.kv) == Some(kvs) && UnmarshalPQs(c.pq) == Some(pqs) && UnmarshalACLs(c.acl) == Some(acls)
    ensures var w1 := Next(s, w); var w2 := Next(s, w1);
            LoadFamiliesSpec(s, w, d, c.start) ==
              (Next(s, w2),
               d.(kvData := IfRead(s, w, kvs), pqData := IfRead(s, w1, pqs), aclData := IfRead(s, w2, acls)),
               true)
  {
    LoadKVEither(s, w, d, c.start, c.kv, kvs);
    var k := LoadKVSpec(s, w, d, c.start);
    LoadPQEither(s, k.0, k.1, c.start, c.pq, pqs);
    var p := LoadPQSpec(s, k.0, k.1, c.start);
    LoadACLEither(s, p.0, p.1, c.start, c.acl, acls);
  }

  lemma MetadataRead(s: Sys, w: World, d: Draft, text: string)
    requires FileAt(w.fs, Resolve(s.cwd, d.extractedPath) + [META], text) && LoadMetadataSpec(s, w, d).2
    ensures LoadMetadataSpec(s, w, d).0 == Next(s, w) && UnmarshalMap(text).Some?
    ensures LoadMetadataSpec(s, w, d).1 == d.(metadata := UnmarshalMap(text).value)
  {
    DataNameSimple(KV, 0);
    ResolveJoin(s.cwd, d.extractedPath, META);
  }

  // The lists as three reads, of which each may fail, leave them.
  ghost predicate Gathered(s: Sys, w: World, l: (World, Draft, Outcome), kvs: Slice<KVPair>, pqs: Slice<PreparedQuery>,
                           acls: Slice<ACLEntry>) {
    var w1 := Next(s, w); var w2 := Next(s, w1);
    l == (Next(s, w2),
          l.1.(kvData := IfRead(s, w, kvs), pqData := IfRead(s, w1, pqs), aclData := IfRead(s, w2, acls)),
          Completed)
  }

  lemma InspectEither(s: Sys, w: World, d: Draft, c: Contents, kvs: Slice<KVPair>, pqs: Slice<PreparedQuery>,
                      acls: Slice<ACLEntry>, m: (World, Draft, bool))
    requires At(w.fs, Resolve(s.cwd, d.extractedPath), c) && Blank(d) && Reads(c, kvs, pqs, acls, c.start)
    requires m == LoadMetadataSpec(s, w, d) && m.2
    ensures Gathered(s, m.0, InspectSpec(s, w, d), kvs, pqs, acls)
  {
    MetadataRead(s, w, d, c.meta);
    LoadFamiliesEither(s, m.0, m.1, c, kvs, pqs, acls);
    DataFrom(s, m.0, m.1, c.start);
    InspectFrom(s, w, d, m, LoadBackupDataSpec(s, m.0, m.1), kvs, pqs, acls);
  }

  lemma DataFrom(s: Sys, w: World, d: Draft, time: int)
    requires StartTimeOf(d.metadata) == Some(time)
    ensures LoadBackupDataSpec(s, w, d) == LoadFamiliesSpec(s, w, d, time)
  {}

  lemma InspectFrom(s: Sys, w: World, d: Draft, m: (World, Draft, bool), l: (World, Draft, bool), kvs: Slice<KVPair>,
                    pqs: Slice<PreparedQuery>, acls: Slice<ACLEntry>)
    requires m == LoadMetadataSpec(s, w, d) && m.2 && l == LoadBackupDataSpec(s, m.0, m.1) && l.2
    requires Gathered(s, m.0, (l.0, l.1, Completed), kvs, pqs, acls)
    ensures Gathered(s, m.0, InspectSpec(s, w, d), kvs, pqs, acls)
  {}

  // ---- What a completed run has restored, under any schedule ----

  lemma Extracted(s: Sys, w: World, d: Draft, q: Path, data: string, prefix: Path, c: Contents)
    requires Lawful(s) && IsArchive(s, data, prefix, c, false) && FileAt(w.fs, Resolve(s.cwd, d.localPath), data)
    requires q == Resolve(s.cwd, d.localPath + EXTRACTED) && ExtractSpec(s, w, d).2
    ensures At(ExtractSpec(s, w, d).0.fs, q + prefix, c)
  {
    ArchiveMembers(s, data, prefix, c, false);
    ExtractedFrom(s, w, d, q, data);
    UnpackAt(s, Next(s, Made(s, w, q)), q, Inside(s, data), prefix, c);
  }

  lemma ExtractedFrom(s: Sys, w: World, d: Draft, q: Path, data: string)
    requires FileAt(w.fs, Resolve(s.cwd, d.localPath), data) && s.gunzip(data).Some?
    requires q == Resolve(s.cwd, d.localPath + EXTRACTED) && ExtractSpec(s, w, d).2
    ensures Extract(s, Next(s, Made(s, w, q)), q, Inside(s, data)).1
    ensures ExtractSpec(s, w, d).0.fs == Extract(s, Next(s, Made(s, w, q)), q, Inside(s, data)).0.fs
  {}

  lemma DownloadHas(s: Sys, w: World, cfg: Config, path: string, got: (World, Option<Draft>))
    requires !cfg.acceptance && got == DownloadSpec(s, w, cfg, path) && got.1.Some?
    ensures BackupFacts.HasPlace(cfg) && (BackupService.PlaceOf(cfg), path) in w.objects && Blank(got.1.value)
    ensures got.1.value == NewDraft(path).(localPath := Join(cfg.tmpDir, Base(path)))
    ensures FileAt(got.0.fs, Resolve(s.cwd, got.1.value.localPath), w.objects[(BackupService.PlaceOf(cfg), path)])
  {}

  // The worlds and drafts that a run's first three steps leave, as far as it gets.
  ghost predicate Trail(s: Sys, w: World, cfg: Config, path: string, got: (World, Option<Draft>),
                        x: (World, Draft, bool), m: (World, Draft, bool)) {
    && got == DownloadSpec(s, w, cfg, path)
    && (got.1.Some? ==> x == ExtractSpec(s, got.0, got.1.value) && m == LoadMetadataSpec(s, x.0, x.1))
  }

  // A run got as far as to load the lists.
  ghost predicate Steps(s: Sys, w: World, cfg: Config, path: string, got: (World, Option<Draft>),
                        x: (World, Draft, bool), m: (World, Draft, bool)) {
    Trail(s, w, cfg, path, got, x, m) && got.1.Some? && x.2 && m.2
  }

  lemma StepsFrom(s: Sys, w: World, d: Draft)
    requires !BeforeReplay(UnpackSpec(s, w, d).1)
    ensures var x := ExtractSpec(s, w, d); x.2 && LoadMetadataSpec(s, x.0, x.1).2
  {}

  // A run that ends without an error has taken all three.
  lemma CompletedSteps(s: Sys, w: World, cfg: Config, path: string, got: (World, Option<Draft>),
                       x: (World, Draft, bool), m: (World, Draft, bool))
    requires Trail(s, w, cfg, path, got, x, m) && !BeforeReplay(RunRestoreSpec(s, w, cfg, path).1)
    ensures Steps(s, w, cfg, path, got, x, m)
  {
    RunRestoreMeaning(s, w, cfg, path);
    RunIsUnpack(s, w, cfg, path, got);
    StepsFrom(s, got.0, got.1.value);
  }

  lemma LoadIsInspect(s: Sys, w: World, d: Draft, x: (World, Draft, bool))
    requires x == ExtractSpec(s, w, d) && x.2
    ensures LoadSpec(s, w, d) == InspectSpec(s, x.0, x.1)
  {}

  lemma UnpackedHas(s: Sys, w: World, cfg: Config, path: string, data: string, c: Contents,
                    got: (World, Option<Draft>), x: (World, Draft, bool))
    requires Lawful(s) && !cfg.acceptance && BackupFacts.HasPlace(cfg) && IsArchive(s, data, [], c, false)
    requires (BackupService.PlaceOf(cfg), path) in w.objects && data == w.objects[(BackupService.PlaceOf(cfg), path)]
    requires got == DownloadSpec(s, w, cfg, path) && got.1.Some? && x == ExtractSpec(s, got.0, got.1.value) && x.2
    ensures At(x.0.fs, Resolve(s.cwd, x.1.extractedPath), c) && Blank(x.1)
  {
    DownloadHas(s, w, cfg, path, got);
    UnpackedAt(s, got.0, got.1.value, data, c, x);
  }

  lemma UnpackedAt(s: Sys, w: World, d: Draft, data: string, c: Contents, x: (World, Draft, bool))
    requires Lawful(s) && IsArchive(s, data, [], c, false) && FileAt(w.fs, Resolve(s.cwd, d.localPath), data)
    requires Blank(d) && x == ExtractSpec(s, w, d) && x.2
    ensures At(x.0.fs, Resolve(s.cwd, x.1.extractedPath), c) && Blank(x.1)
  {
    var q := Resolve(s.cwd, d.localPath + EXTRACTED);
    Extracted(s, w, d, q, data, [], c);
    assert q + [] == q;
    ExtractSpecFrame(s, w, d);
  }

  // Given that the archive was downloaded, unpacked and its metadata read, each
  // list is loaded if and only if the read of its own file goes through.
  lemma ListsLoaded(s: Sys, w: World, cfg: Config, path: string, data: string, c: Contents, kvs: Slice<KVPair>,
                    pqs: Slice<PreparedQuery>, acls: Slice<ACLEntry>,
                    got: (World, Option<Draft>), x: (World, Draft, bool), m: (World, Draft, bool))
    requires Lawful(s) && !cfg.acceptance && Steps(s, w, cfg, path, got, x, m) && BackupFacts.HasPlace(cfg)
    requires (BackupService.PlaceOf(cfg), path) in w.objects && data == w.objects[(BackupService.PlaceOf(cfg), path)]
    requires IsArchive(s, data, [], c, false) && Reads(c, kvs, pqs, acls, c.start)
    ensures Gathered(s, m.0, LoadSpec(s, got.0, got.1.value), kvs, pqs, acls)
  {
    UnpackedHas(s, w, cfg, path, data, c, got, x);
    InspectEither(s, x.0, x.1, c, kvs, pqs, acls, m);
    LoadIsInspect(s, got.0, got.1.value, x);
  }

  lemma CompletedWrites(s: Sys, w: World, d: Draft, l: (World, Draft, Outcome))
    requires l == LoadSpec(s, w, d) && UnpackSpec(s, w, d).1 == Completed
    ensures UnpackSpec(s, w, d).0.consul == Over(w.consul, l.1.kvData, l.1.pqData, l.1.aclData)
  {
    UnpackMeaning(s, w, d);
    AllWritten(w.consul, UnpackSpec(s, w, d).0.consul, l.1);
  }

  lemma AllWritten(before: Store, after: Store, d: Draft)
    requires Written(before, after, d, Completed)
    ensures after == Over(before, d.kvData, d.pqData, d.aclData)
  {
    var a: nat, b: nat, c: nat :| Replayed(before, after, d, a, b, c) &&
      a == d.kvData.Len() && b == d.pqData.Len() && c == d.aclData.Len();
    ReplayedAll(before, after, d);
  }

  // What a completed run leaves, whatever failed: the lists whose files were read
  // over the store. That is the whole snapshot exactly when the reads of the
  // non-empty lists went through (or the store had the pairs already).
  lemma CompletedRestores(s: Sys, w: World, cfg: Config, path: string, data: string, c: Contents, kvs: Slice<KVPair>,
                          pqs: Slice<PreparedQuery>, acls: Slice<ACLEntry>,
                          got: (World, Option<Draft>), x: (World, Draft, bool), m: (World, Draft, bool))
    requires Lawful(s) && !cfg.acceptance && BackupFacts.HasPlace(cfg) && Trail(s, w, cfg, path, got, x, m)
    requires (BackupService.PlaceOf(cfg), path) in w.objects && data == w.objects[(BackupService.PlaceOf(cfg), path)]
    requires IsArchive(s, data, [], c, false) && Reads(c, kvs, pqs, acls, c.start)
    requires RunRestoreSpec(s, w, cfg, path).1 == Completed
    ensures var w1 := Next(s, m.0); var w2 := Next(s, w1);
            RunRestoreSpec(s, w, cfg, path).0.consul ==
              Over(w.consul, IfRead(s, m.0, kvs), IfRead(s, w1, pqs), IfRead(s, w2, acls))
  {
    CompletedSteps(s, w, cfg, path, got, x, m);
    ListsLoaded(s, w, cfg, path, data, c, kvs, pqs, acls, got, x, m);
    RunIsUnpack(s, w, cfg, path, got);
    DownloadFrame(s, w, cfg, path);
    CompletedWrites(s, got.0, got.1.value, LoadSpec(s, got.0, got.1.value));
  }

  lemma WholeIff(m: Store, kvs: Slice<KVPair>, pqs: Slice<PreparedQuery>, acls: Slice<ACLEntry>, a: bool, b: bool,
                 c: bool)
    ensures Over(m, if a then kvs else Nil, if b then pqs else Nil, if c then acls else Nil) ==
            Over(m, kvs, pqs, acls) <==>
              (a || Overlay(m.kv, kvs.Elems()) == m.kv) && (b || pqs.Len() == 0) && (c || acls.Len() == 0)
  {
    assert Overlay(m.kv, []) == m.kv;
    assert |m.pqs + pqs.Elems()| == |m.pqs| + pqs.Len() && |m.acls + acls.Elems()| == |m.acls| + acls.Len();
    assert pqs.Len() == 0 ==> m.pqs + pqs.Elems() == m.pqs + Nil.Elems();
    assert acls.Len() == 0 ==> m.acls + acls.Elems() == m.acls + Nil.Elems();
  }

  lemma CompletedWholeIff(s: Sys, w: World, cfg: Config, path: string, data: string, c: Contents, kvs: Slice<KVPair>,
                          pqs: Slice<PreparedQuery>, acls: Slice<ACLEntry>,
                          got: (World, Option<Draft>), x: (World, Draft, bool), m: (World, Draft, bool))
    requires Lawful(s) && !cfg.acceptance && BackupFacts.HasPlace(cfg) && Trail(s, w, cfg, path, got, x, m)
    requires (BackupService.PlaceOf(cfg), path) in w.objects && data == w.objects[(BackupService.PlaceOf(cfg), path)]
    requires IsArchive(s, data, [], c, false) && Reads(c, kvs, pqs, acls, c.start)
    requires RunRestoreSpec(s, w, cfg, path).1 == Completed
    ensures RunRestoreSpec(s, w, cfg, path).0.consul == Over(w.consul, kvs, pqs, acls) <==>
              && (Up(s, m.0) || Overlay(w.consul.kv, kvs.Elems()) == w.consul.kv)
              && (Up(s, Next(s, m.0)) || pqs.Len() == 0) && (Up(s, Next(s, Next(s, m.0))) || acls.Len() == 0)
  {
    CompletedRestores(s, w, cfg, path, data, c, kvs, pqs, acls, got, x, m);
    var w1 := Next(s, m.0);
    WholeIff(w.consul, kvs, pqs, acls, Up(s, m.0), Up(s, w1), Up(s, Next(s, w1)));
  }

  // ---- The input that restores everything but the keys ----

  // Two schedules that are the same for the calls before the given one.
  ghost predicate Agree(s: Sys, z: Sys, n: nat) {
    z == s.(fault := z.fault) && forall i: nat :: i < n ==> z.fault(i) == s.fault(i)
  }

  lemma ExtractOneLocal(s: Sys, z: Sys, w: World, dest: Path, e: Entry, n: nat)
    requires Agree(s, z, n) && ExtractOne(s, w, dest, e).0.calls <= n
    ensures ExtractOne(z, w, dest, e) == ExtractOne(s, w, dest, e) && ExtractOne(s, w, dest, e).0.calls >= w.calls
  {}

  lemma {:induction false} ExtractLocal(s: Sys, z: Sys, w: World, dest: Path, es: seq<Entry>, n: nat)
    requires Agree(s, z, n) && Extract(s, w, dest, es).0.calls <= n
    ensures Extract(z, w, dest, es) == Extract(s, w, dest, es)
    decreases |es|
  {
    if es != [] {
      var a := ExtractOne(s, w, dest, es[0]);
      if a.1 {
        ExtractCalls(s, a.0, dest, es[1..]);
      }
      ExtractOneLocal(s, z, w, dest, es[0], n);
      if a.1 {
        ExtractLocal(s, z, a.0, dest, es[1..], n);
      }
    }
  }

  lemma {:induction false} ExtractCalls(s: Sys, w: World, dest: Path, es: seq<Entry>)
    ensures Extract(s, w, dest, es).0.calls >= w.calls
    decreases |es|
  {
    if es != [] {
      ExtractCalls(s, ExtractOne(s, w, dest, es[0]).0, dest, es[1..]);
    }
  }

  lemma UnTarGzLocal(s: Sys, z: Sys, w: World, src: string, dest: string, n: nat)
    requires Agree(s, z, n) && UnTarGzSpec(s, w, src, dest).0.calls <= n
    ensures UnTarGzSpec(z, w, src, dest) == UnTarGzSpec(s, w, src, dest)
            && UnTarGzSpec(s, w, src, dest).0.calls >= w.calls
  {
    var r := Read(s, w, src);
    if r.1.Some? && s.gunzip(r.1.value).Some? {
      var es := s.untar(s.gunzip(r.1.value).value).entries;
      ExtractCalls(s, r.0, Resolve(s.cwd, dest), es);
      ExtractLocal(s, z, r.0, Resolve(s.cwd, dest), es, n);
    }
  }

  lemma ExtractSpecLocal(s: Sys, z: Sys, w: World, d: Draft, n: nat)
    requires Agree(s, z, n) && ExtractSpec(s, w, d).0.calls <= n
    ensures ExtractSpec(z, w, d) == ExtractSpec(s, w, d) && ExtractSpec(s, w, d).0.calls >= w.calls
  {
    var m := Mkdir(s, w, d.localPath + EXTRACTED);
    if m.1 {
      UnTarGzLocal(s, z, m.0, d.localPath, d.localPath + EXTRACTED, n);
    }
  }

  lemma DownloadLocal(s: Sys, z: Sys, w: World, cfg: Config, path: string, n: nat)
    requires Agree(s, z, n) && DownloadSpec(s, w, cfg, path).0.calls <= n
    ensures DownloadSpec(z, w, cfg, path) == DownloadSpec(s, w, cfg, path)
  {}

  lemma MetadataLocal(s: Sys, z: Sys, w: World, d: Draft, n: nat)
    requires Agree(s, z, n) && LoadMetadataSpec(s, w, d).0.calls <= n
    ensures LoadMetadataSpec(z, w, d) == LoadMetadataSpec(s, w, d) && LoadMetadataSpec(s, w, d).0.calls >= w.calls
  {}

  lemma StepsLocal(s: Sys, z: Sys, w: World, cfg: Config, path: string, got: (World, Option<Draft>),
                   x: (World, Draft, bool), m: (World, Draft, bool))
    requires Steps(s, w, cfg, path, got, x, m) && Agree(s, z, m.0.calls)
    ensures Steps(z, w, cfg, path, got, x, m)
  {
    MetadataLocal(s, z, x.0, x.1, m.0.calls);
    ExtractSpecLocal(s, z, got.0, got.1.value, m.0.calls);
    DownloadLocal(s, z, w, cfg, path, m.0.calls);
  }

  // The same schedule, but the given call fails.
  function Failing(s: Sys, n: nat): Sys { s.(fault := (i: nat) => if i == n then Fails else s.fault(i)) }

  lemma GatheredFinishes(z: Sys, w: World, d: Draft, m: (World, Draft, bool), kvs: Slice<KVPair>,
                         pqs: Slice<PreparedQuery>, acls: Slice<ACLEntry>, l: (World, Draft, Outcome))
    requires m.0.alive && z.fault(m.0.calls) == Fails && FineFrom(z, m.0.calls + 1)
    requires l == LoadSpec(z, w, d) && Gathered(z, m.0, l, kvs, pqs, acls)
    ensures UnpackSpec(z, w, d).1 == Completed
    ensures UnpackSpec(z, w, d).0.consul == Over(w.consul, Nil, pqs, acls)
  {
    LoadFrame(z, w, d);
    FinishOk(z, l.0, l.1);
  }

  lemma KeysMissing(z: Sys, w: World, cfg: Config, path: string, data: string, c: Contents,
                    kvs: Slice<KVPair>, pqs: Slice<PreparedQuery>, acls: Slice<ACLEntry>,
                    got: (World, Option<Draft>), x: (World, Draft, bool), m: (World, Draft, bool))
    requires Lawful(z) && !cfg.acceptance && BackupFacts.HasPlace(cfg) && Steps(z, w, cfg, path, got, x, m)
    requires m.0.alive && z.fault(m.0.calls) == Fails && FineFrom(z, m.0.calls + 1)
    requires (BackupService.PlaceOf(cfg), path) in w.objects && data == w.objects[(BackupService.PlaceOf(cfg), path)]
    requires IsArchive(z, data, [], c, false) && Reads(c, kvs, pqs, acls, c.start)
    ensures RunRestoreSpec(z, w, cfg, path).1 == Completed
    ensures RunRestoreSpec(z, w, cfg, path).0.consul == Over(w.consul, Nil, pqs, acls)
  {
    ListsLoaded(z, w, cfg, path, data, c, kvs, pqs, acls, got, x, m);
    RunIsUnpack(z, w, cfg, path, got);
    DownloadFrame(z, w, cfg, path);
    GatheredFinishes(z, got.0, got.1.value, m, kvs, pqs, acls, LoadSpec(z, got.0, got.1.value));
  }

  lemma FailingLaws(s: Sys, n: nat, data: string, prefix: Path, c: Contents)
    requires Lawful(s) && FaultFree(s) && IsArchive(s, data, prefix, c, false)
    ensures var z := Failing(s, n);
            Lawful(z) && IsArchive(z, data, prefix, c, false) && Agree(s, z, n) && FineFrom(z, n + 1)
  {}

  lemma KeysUnread(s: Sys, z: Sys, w: World, cfg: Config, path: string, data: string, c: Contents,
                   kvs: Slice<KVPair>, pqs: Slice<PreparedQuery>, acls: Slice<ACLEntry>,
                   got: (World, Option<Draft>), x: (World, Draft, bool), m: (World, Draft, bool))
    requires Lawful(s) && FaultFree(s) && !cfg.acceptance && BackupFacts.HasPlace(cfg)
    requires Steps(s, w, cfg, path, got, x, m) && m.0.alive && z == Failing(s, m.0.calls)
    requires (BackupService.PlaceOf(cfg), path) in w.objects && data == w.objects[(BackupService.PlaceOf(cfg), path)]
    requires IsArchive(s, data, [], c, false) && Reads(c, kvs, pqs, acls, c.start)
    ensures RunRestoreSpec(z, w, cfg, path).1 == Completed
    ensures RunRestoreSpec(z, w, cfg, path).0.consul == Over(w.consul, Nil, pqs, acls)
  {
    FailingLaws(s, m.0.calls, data, [], c);
    StepsLocal(s, z, w, cfg, path, got, x, m);
    KeysMissing(z, w, cfg, path, data, c, kvs, pqs, acls, got, x, m);
  }

  // When nothing fails a run gets as far as the metadata.
  lemma ReadySteps(s: Sys, w: World, cfg: Config, path: string, data: string, c: Contents,
                   got: (World, Option<Draft>), x: (World, Draft, bool), m: (World, Draft, bool))
    requires Lawful(s) && FaultFree(s) && Ready(s, w, cfg, path) && IsArchive(s, data, [], c, false)
    requires data == w.objects[(BackupService.PlaceOf(cfg), path)] && UnmarshalMap(c.meta).Some?
    requires got == DownloadSpec(s, w, cfg, path)
    requires got.1.Some? ==> x == ExtractSpec(s, got.0, got.1.value) && m == LoadMetadataSpec(s, x.0, x.1)
    ensures Steps(s, w, cfg, path, got, x, m) && m.0.alive
  {
    var q := ExtractedAt(s, cfg, path);
    Downloaded(s, w, cfg, path, data, [], c, false, q, got);
    ExtractLands(s, got.0, got.1.value, q, data, [], c, false);
    UnpackedHas(s, w, cfg, path, data, c, got, x);
    LoadMetadataOk(s, x.0, x.1, c.meta);
  }

  // Any restore that can succeed can also lose every key in silence: if the read
  // of the key file, which is the call after the metadata, fails and nothing else
  // does, the run restores the queries and the ACLs and reports success.
  lemma KeysSilentlyMissing(s: Sys, w: World, cfg: Config, path: string, data: string, c: Contents,
                            kvs: Slice<KVPair>, pqs: Slice<PreparedQuery>, acls: Slice<ACLEntry>)
    requires Lawful(s) && FaultFree(s) && Ready(s, w, cfg, path) && IsArchive(s, data, [], c, false)
    requires data == w.objects[(BackupService.PlaceOf(cfg), path)] && Reads(c, kvs, pqs, acls, c.start)
    ensures var got := DownloadSpec(s, w, cfg, path);
            && got.1.Some?
            && var x := ExtractSpec(s, got.0, got.1.value);
               var r := RunRestoreSpec(Failing(s, LoadMetadataSpec(s, x.0, x.1).0.calls), w, cfg, path);
               r.1 == Completed && r.0.consul == Over(w.consul, Nil, pqs, acls)
  {
    var got := DownloadSpec(s, w, cfg, path);
    Downloaded(s, w, cfg, path, data, [], c, false, ExtractedAt(s, cfg, path), got);
    var x := ExtractSpec(s, got.0, got.1.value);
    var m := LoadMetadataSpec(s, x.0, x.1);
    ReadySteps(s, w, cfg, path, data, c, got, x, m);
    KeysUnread(s, Failing(s, m.0.calls), w, cfg, path, data, c, kvs, pqs, acls, got, x, m);
  }

  // ---- Repeating a run that failed or died ----

  // What a restore needs of the disk; every run leaves it so for the next.
  ghost predicate Site(fs: Fs, tmp: Path, file: string, es: seq<Entry>) {
    Tree(fs) && tmp in fs.dirs && tmp + [file] !in fs.dirs && Accepts(fs, tmp + [file + EXTRACTED], es)
  }

  lemma PutKeepsSite(fs: Fs, tmp: Path, file: string, es: seq<Entry>, data: string)
    requires Site(fs, tmp, file, es) && Simple(file)
    ensures Site(Put(fs, tmp + [file], data), tmp, file, es)
  {
    ExtractedSimple(file);
    PutBeside(fs, tmp, file, file + EXTRACTED, es, data, 0);
    var p := tmp + [file];
    assert p[..|p| - 1] == tmp;
    PutTree(fs, p, data);
  }

  lemma WriteKeepsSite(s: Sys, w: World, tmp: Path, file: string, es: seq<Entry>, data: string)
    requires Site(w.fs, tmp, file, es) && Simple(file)
    ensures Site(WriteAt(s, w, tmp + [file], data).0.fs, tmp, file, es)
  {
    var fs := WriteAt(s, w, tmp + [file], data).0.fs;
    if fs != w.fs {
      PutKeepsSite(w.fs, tmp, file, es, fs.files[tmp + [file]]);
    }
  }

  lemma DownloadKeepsSite(s: Sys, w: World, cfg: Config, path: string, tmp: Path, file: string, es: seq<Entry>)
    requires Site(w.fs, tmp, file, es) && Simple(file) && !cfg.acceptance
    requires tmp == Resolve(s.cwd, cfg.tmpDir) && file == Base(path)
    ensures Site(DownloadSpec(s, w, cfg, path).0.fs, tmp, file, es)
  {
    ResolveJoin(s.cwd, cfg.tmpDir, file);
    if BackupFacts.HasPlace(cfg) {
      var r := Download(s, w, BackupService.PlaceOf(cfg), path);
      if r.1.Some? {
        WriteKeepsSite(s, r.0, tmp, file, es, r.1.value);
      }
    }
  }

  lemma MkdirKeepsSite(s: Sys, w: World, tmp: Path, file: string, es: seq<Entry>)
    requires Site(w.fs, tmp, file, es) && Simple(file)
    ensures Site(MkdirAt(s, w, tmp + [file + EXTRACTED]).0.fs, tmp, file, es)
  {
    var q := tmp + [file + EXTRACTED];
    ExtractedSimple(file);
    AcceptsMaking(s, w, q, es);
    MkdirKeepsTree(s, w, q);
    Siblings(tmp, file, file + EXTRACTED, []);
    assert q + [] == q;
    var a := MadeBy(s, w, q);
    assert forall k :: 0 <= k <= |a| ==> a[..k] <= q;
  }

  lemma ExtractKeepsSite(s: Sys, w: World, tmp: Path, file: string, es: seq<Entry>)
    requires Site(w.fs, tmp, file, es) && Simple(file) && Coherent(es)
    ensures Site(Extract(s, w, tmp + [file + EXTRACTED], es).0.fs, tmp, file, es)
  {
    ExtractedSimple(file);
    forall i | 0 <= i < |es| ensures !(tmp + [file] <= tmp + [file + EXTRACTED] + es[i].name) {
      Siblings(tmp, file, file + EXTRACTED, es[i].name);
    }
    AmongItself(es);
    ExtractKeepsRoom(s, w, tmp + [file + EXTRACTED], es, es, tmp + [file]);
  }

  lemma UnpackKeepsSite(s: Sys, w: World, d: Draft, tmp: Path, file: string, data: string)
    requires Site(w.fs, tmp, file, Inside(s, data)) && Simple(file) && Coherent(Inside(s, data))
    requires FileAt(w.fs, Resolve(s.cwd, d.localPath), data)
    requires Resolve(s.cwd, d.localPath) == tmp + [file]
    requires Resolve(s.cwd, d.localPath + EXTRACTED) == tmp + [file + EXTRACTED]
    ensures Site(ExtractSpec(s, w, d).0.fs, tmp, file, Inside(s, data))
  {
    var q := tmp + [file + EXTRACTED];
    var m := MkdirAt(s, w, q);
    MkdirKeepsSite(s, w, tmp, file, Inside(s, data));
    if m.1 {
      ExtractKeepsSite(s, Next(s, m.0), tmp, file, Inside(s, data));
    }
  }

  lemma CleanupKeepsSite(s: Sys, w: World, d: Draft, tmp: Path, file: string, es: seq<Entry>)
    requires Site(w.fs, tmp, file, es) && d.localPath != "" && d.extractedPath != ""
    requires Resolve(s.cwd, d.localPath) == tmp + [file] && Resolve(s.cwd, d.extractedPath) == tmp + [file + EXTRACTED]
    ensures Site(CleanupSpec(s, w, d).fs, tmp, file, es)
  {
    var p, q := tmp + [file], tmp + [file + EXTRACTED];
    CleanupRemoves(s, w, d, p, q);
    var a := RemoveAt(s, w, p).0;
    RemoveKeepsTree(s, w, p);
    WipeKeepsTree(s, a, q);
    var fs := WipeAt(s, a, q).0.fs;
    AcceptsLess(w.fs, fs, q, es);
  }

  // The rest of a run, seen from the disk.
  lemma RestKeepsSite(s: Sys, w: World, d: Draft, tmp: Path, file: string, data: string)
    requires Site(w.fs, tmp, file, Inside(s, data)) && Simple(file) && Coherent(Inside(s, data)) && d.localPath != ""
    requires FileAt(w.fs, Resolve(s.cwd, d.localPath), data)
    requires Resolve(s.cwd, d.localPath) == tmp + [file]
    requires Resolve(s.cwd, d.localPath + EXTRACTED) == tmp + [file + EXTRACTED]
    ensures Site(UnpackSpec(s, w, d).0.fs, tmp, file, Inside(s, data))
  {
    UnpackKeepsSite(s, w, d, tmp, file, data);
    LoadFrame(s, w, d);
    var l := LoadSpec(s, w, d);
    CleanupKeepsSite(s, l.0, l.1, tmp, file, Inside(s, data));
    RestoreToConsulMeaning(s, l.0, l.1);
    CleanupKeepsSite(s, RestoreToConsulSpec(s, l.0, l.1).0, l.1, tmp, file, Inside(s, data));
  }

  lemma RunKeepsSite(s: Sys, w: World, cfg: Config, path: string, data: string, tmp: Path, file: string)
    requires !cfg.acceptance && tmp == Resolve(s.cwd, cfg.tmpDir) && file == Base(path) && Simple(file)
    requires Site(w.fs, tmp, file, Inside(s, data)) && Coherent(Inside(s, data)) && BackupFacts.HasPlace(cfg)
    requires (BackupService.PlaceOf(cfg), path) in w.objects && data == w.objects[(BackupService.PlaceOf(cfg), path)]
    ensures Site(RunRestoreSpec(s, w, cfg, path).0.fs, tmp, file, Inside(s, data))
  {
    DownloadKeepsSite(s, w, cfg, path, tmp, file, Inside(s, data));
    var got := DownloadSpec(s, w, cfg, path);
    if got.1.Some? {
      DownloadHas(s, w, cfg, path, got);
      DownloadNames(s, w, cfg, path);
      ExtractedSimple(file);
      ResolveJoin(s.cwd, cfg.tmpDir, file);
      JoinSuffix(s.cwd, cfg.tmpDir, file, EXTRACTED);
      RestKeepsSite(s, got.0, got.1.value, tmp, file, data);
      RunIsUnpack(s, w, cfg, path, got);
    }
  }

  lemma RunKeepsObjects(s: Sys, w: World, cfg: Config, path: string)
    ensures RunRestoreSpec(s, w, cfg, path).0.objects == w.objects
  {
    RunRestoreMeaning(s, w, cfg, path);
  }

  lemma ReadyFrom(z: Sys, w: World, cfg: Config, path: string, data: string, r: World)
    requires Ready(z, w, cfg, path) && data == w.objects[(BackupService.PlaceOf(cfg), path)]
    requires r.alive && r.objects == w.objects
    requires Site(r.fs, Resolve(z.cwd, cfg.tmpDir), Base(path), Inside(z, data))
    ensures Ready(z, r, cfg, path)
  {}

  lemma ReadySite(z: Sys, w: World, cfg: Config, path: string, data: string)
    requires Ready(z, w, cfg, path) && data == w.objects[(BackupService.PlaceOf(cfg), path)] && Tree(w.fs)
    ensures Site(w.fs, Resolve(z.cwd, cfg.tmpDir), Base(path), Inside(z, data))
  {}

  lemma InsideSame(s: Sys, z: Sys, data: string)
    requires s == z.(fault := s.fault)
    ensures Inside(s, data) == Inside(z, data)
  {}

  // After a run under any schedule, in a new process, another can be made.
  lemma ReadyAgain(s: Sys, z: Sys, w: World, cfg: Config, path: string, data: string, prefix: Path, c: Contents,
                   r: World)
    requires Lawful(z) && Tree(w.fs) && Ready(z, w, cfg, path) && data == w.objects[(BackupService.PlaceOf(cfg), path)]
    requires IsArchive(z, data, prefix, c, false)
    requires s == z.(fault := s.fault) && r == RunRestoreSpec(s, w, cfg, path).0
    ensures Ready(z, r.(alive := true), cfg, path) && Tree(r.fs)
  {
    ArchiveMembers(z, data, prefix, c, false);
    InsideSame(s, z, data);
    ReadySite(z, w, cfg, path, data);
    RunKeepsSite(s, w, cfg, path, data, Resolve(z.cwd, cfg.tmpDir), Base(path));
    RunKeepsObjects(s, w, cfg, path);
    ReadyFrom(z, w, cfg, path, data, r.(alive := true));
  }

  // A restore that failed, was torn half-way or was killed at any call can be
  // repeated: the second one, if nothing fails, replays the backup's lists over
  // the store as the first has left it.
  lemma RetryRestores(s: Sys, start: World, cfg: Config, c: Client, time: int64, end: int64,
                      b: (World, Client, Outcome),
                      f: Sys, z: Sys, w: World, cfg': Config, path: string, d: Lists3, r: World)
    requires s.layout.Flat? && Follows(s, start, cfg, c, time, end, b, z, w, cfg', path) && Tree(w.fs)
    requires d == CleanLists(ListedBy(s, start)) && Float64.Representable(time)
    requires f == z.(fault := f.fault) && r == RunRestoreSpec(f, w, cfg', path).0
    ensures var again := RunRestoreSpec(z, r.(alive := true), cfg', path);
            again.1 == Completed && again.0.consul == Over(r.consul, d.kvs, d.pqs, d.acls)
  {
    var k, data := BackupFacts.Taken(s, start, cfg, time, end), w.objects[(BackupService.PlaceOf(cfg'), path)];
    FollowsHolds(s, start, cfg, c, time, end, b, z, w, cfg', path, false, data);
    TakenBy(s, start, cfg, time, end, d, k);
    Float64.RoundExactIff(time);
    ReadyAgain(f, z, w, cfg', path, data, [], k, r);
    RunKeepsObjects(f, w, cfg', path);
    RestoreFlat(z, r.(alive := true), cfg', path, data, k, d.kvs, d.pqs, d.acls, time, false);
  }
}
