/**
 Where a service restore stops, from the bytes in the bucket and on the disk.
 */
module ServiceStops {
  import opened Wrappers
  import opened Paths
  import opened Names
  import opened Json
  import opened Records
  import opened Metadata
  import opened World
  import opened Config
  import opened Archiver
  import opened Snapshots
  import opened RestoreService
  import opened RestoreFacts
  import opened ServiceTrip
  import opened ServiceFaults
  import BackupService
  import BackupFacts

  // How loading ended decides how the run does.
  lemma StopIs(s: Sys, w: World, d: Draft, l: (World, Draft, Outcome))
    requires l == LoadSpec(s, w, d)
    ensures l.2 == Completed <==> !BeforeReplay(UnpackSpec(s, w, d).1)
    ensures l.2 != Completed ==> UnpackSpec(s, w, d).1 == l.2
    ensures l.2 in {Completed, Stopped(Extracting), Stopped(Inspecting), Stopped(Loading)}
  {}

  lemma NeverReturns(s: Sys, w: World, d: Draft)
    ensures UnpackSpec(s, w, d).1 != Stopped(Downloading)
  {
    StopIs(s, w, d, LoadSpec(s, w, d));
  }

  // ---- Downloading ----

  // A restore gets past the download exactly if there is a client and a bucket, the
  // object is in it, both calls go through and the file can be made. In acceptance
  // mode it always does.
  lemma DownloadingIff(s: Sys, w: World, cfg: Config, path: string)
    ensures RunRestoreSpec(s, w, cfg, path).1 != Stopped(Downloading) <==>
              cfg.acceptance ||
              (&& cfg.storage.Some? && BackupFacts.BucketUsed(cfg) != ""
               && (Bucket(cfg.storage.value, BackupFacts.BucketUsed(cfg)), path) in w.objects
               && Up(s, w) && Up(s, Next(s, w)) && CanWrite(w.fs, Resolve(s.cwd, Join(cfg.tmpDir, Base(path)))))
  {
    var got := DownloadSpec(s, w, cfg, path);
    if got.1.Some? {
      NeverReturns(s, got.0, got.1.value);
    }
  }

  // What is then on disk is the object, byte for byte.
  lemma FetchedIsObject(s: Sys, w: World, cfg: Config, path: string, got: (World, Option<Draft>))
    requires !cfg.acceptance && got == DownloadSpec(s, w, cfg, path) && got.1.Some?
    ensures cfg.storage.Some? && (Bucket(cfg.storage.value, BackupFacts.BucketUsed(cfg)), path) in w.objects
    ensures got.0.fs == Put(w.fs, Resolve(s.cwd, got.1.value.localPath),
                            w.objects[(Bucket(cfg.storage.value, BackupFacts.BucketUsed(cfg)), path)])
  {}

  // ---- Extracting ----

  lemma DamagedExtracts(s: Sys, w: World, d: Draft)
    requires var p := Resolve(s.cwd, d.localPath); p in w.fs.files ==> !Intact(s, w.fs.files[p])
    ensures LoadSpec(s, w, d).2 == Stopped(Extracting)
  {
    var m := Mkdir(s, w, d.localPath + EXTRACTED);
    DamagedRefused(s, m.0, d.localPath, d.localPath + EXTRACTED);
  }

  // Once downloaded, a run gets past the extraction exactly if the directory can be
  // made, the file is read and intact, and every member of it is unpacked.
  lemma ExtractingIff(s: Sys, w: World, cfg: Config, path: string, got: (World, Option<Draft>))
    requires got == DownloadSpec(s, w, cfg, path) && got.1.Some?
    ensures var p := Resolve(s.cwd, got.1.value.localPath);
            var q := Resolve(s.cwd, got.1.value.localPath + ".extracted");
            var a := Made(s, got.0, q);
            RunRestoreSpec(s, w, cfg, path).1 != Stopped(Extracting) <==>
              && Up(s, got.0) && CanMkdir(got.0.fs, q) && Legible(s, a, p) && Intact(s, got.0.fs.files[p])
              && Extract(s, Next(s, a), q, Inside(s, got.0.fs.files[p])).1
  {
    assert EXTRACTED == ".extracted";
    var d := got.1.value;
    StopIs(s, got.0, d, LoadSpec(s, got.0, d));
    ExtractsIff(s, got.0, d);
  }

  lemma ExtractsIff(s: Sys, w: World, d: Draft)
    ensures var p, q := Resolve(s.cwd, d.localPath), Resolve(s.cwd, d.localPath + EXTRACTED);
            var a := Made(s, w, q);
            (LoadSpec(s, w, d).2 != Stopped(Extracting) <==>
              && Up(s, w) && CanMkdir(w.fs, q) && Legible(s, a, p) && Intact(s, w.fs.files[p])
              && Extract(s, Next(s, a), q, Inside(s, w.fs.files[p])).1)
  {}

  // Under any schedule: an object that is no intact archive is never taken for one.
  // The run stops at the latest at the extraction, and Consul is as it was.
  lemma DamagedStops(s: Sys, w: World, cfg: Config, path: string)
    requires !cfg.acceptance
    requires cfg.storage.Some? ==>
               var k := (Bucket(cfg.storage.value, BackupFacts.BucketUsed(cfg)), path);
               k in w.objects ==> s.gunzip(w.objects[k]) == None || !s.untar(s.gunzip(w.objects[k]).value).clean
    ensures var r := RunRestoreSpec(s, w, cfg, path);
            r.1 in {Stopped(Downloading), Stopped(Extracting)} && Outside(w, r.0)
  {
    var got := DownloadSpec(s, w, cfg, path);
    DownloadFrame(s, w, cfg, path);
    if got.1.Some? {
      FetchedIsObject(s, w, cfg, path, got);
      DamagedExtracts(s, got.0, got.1.value);
      StopIs(s, got.0, got.1.value, LoadSpec(s, got.0, got.1.value));
      UnpackMeaning(s, got.0, got.1.value);
    }
  }

  // The same of the local archive in acceptance mode.
  lemma DamagedAcceptanceStops(s: Sys, w: World, cfg: Config, path: string)
    requires cfg.acceptance
    requires var p := Resolve(s.cwd, Join(cfg.tmpDir, "acceptancetest.tar.gz"));
             p in w.fs.files ==>
               s.gunzip(w.fs.files[p]) == None || !s.untar(s.gunzip(w.fs.files[p]).value).clean
    ensures var r := RunRestoreSpec(s, w, cfg, path); r.1 == Stopped(Extracting) && Outside(w, r.0)
  {
    var got := DownloadSpec(s, w, cfg, path);
    assert ARCHIVE == "acceptancetest.tar.gz";
    DamagedExtracts(s, w, got.1.value);
    StopIs(s, w, got.1.value, LoadSpec(s, w, got.1.value));
    UnpackMeaning(s, w, got.1.value);
  }

  // ---- Inspecting ----

  lemma MetaIs(s: Sys, w: World, d: Draft)
    ensures var p := Resolve(s.cwd, d.extractedPath) + [META]; var m := LoadMetadataSpec(s, w, d);
            && (m.2 <==> Legible(s, w, p) && UnmarshalMap(w.fs.files[p]).Some?)
            && m.0 == Next(s, w)
            && (m.2 ==> m.1 == d.(metadata := UnmarshalMap(w.fs.files[p]).value))
  {
    DataNameSimple(KV, 0);
    ResolveJoin(s.cwd, d.extractedPath, META);
  }

  // Under any schedule, once the archive is unpacked: the run stops at the metadata
  // exactly if the file at the root of the tree is not read or does not parse, and
  // then Consul is as it was.
  lemma InspectingIff(s: Sys, w: World, cfg: Config, path: string, got: (World, Option<Draft>),
                      x: (World, Draft, bool))
    requires got == DownloadSpec(s, w, cfg, path) && got.1.Some?
    requires x == ExtractSpec(s, got.0, got.1.value) && x.2
    ensures var p := Resolve(s.cwd, x.1.extractedPath) + [META]; var r := RunRestoreSpec(s, w, cfg, path);
            && (r.1 == Stopped(Inspecting) <==> !(Legible(s, x.0, p) && UnmarshalMap(x.0.fs.files[p]).Some?))
            && (r.1 == Stopped(Inspecting) ==> Outside(w, r.0))
  {
    MetaIs(s, x.0, x.1);
    LoadIsInspect(s, got.0, got.1.value, x);
    StopIs(s, got.0, got.1.value, LoadSpec(s, got.0, got.1.value));
    RunRestoreMeaning(s, w, cfg, path);
  }

  // ---- Loading ----

  // The next call reads this data file, and it does not parse.
  predicate BadKeys(s: Sys, w: World, p: Path) { Legible(s, w, p) && UnmarshalKVs(w.fs.files[p]) == None }
  predicate BadQueries(s: Sys, w: World, p: Path) { Legible(s, w, p) && UnmarshalPQs(w.fs.files[p]) == None }
  predicate BadRules(s: Sys, w: World, p: Path) { Legible(s, w, p) && UnmarshalACLs(w.fs.files[p]) == None }

  lemma KeysOr(s: Sys, w: World, d: Draft, time: int)
    ensures var r := LoadKVSpec(s, w, d, time);
            && r.2 == !BadKeys(s, w, Resolve(s.cwd, d.extractedPath) + [DataName(KV, time)])
            && r.0 == Next(s, w) && r.1.extractedPath == d.extractedPath
  {
    DataNameSimple(KV, time);
    ResolveJoin(s.cwd, d.extractedPath, DataName(KV, time));
  }

  lemma QueriesOr(s: Sys, w: World, d: Draft, time: int)
    ensures var r := LoadPQSpec(s, w, d, time);
            && r.2 == !BadQueries(s, w, Resolve(s.cwd, d.extractedPath) + [DataName(PQ, time)])
            && r.0 == Next(s, w) && r.1.extractedPath == d.extractedPath
  {
    DataNameSimple(PQ, time);
    ResolveJoin(s.cwd, d.extractedPath, DataName(PQ, time));
  }

  lemma RulesOr(s: Sys, w: World, d: Draft, time: int)
    ensures LoadACLSpec(s, w, d, time).2 == !BadRules(s, w, Resolve(s.cwd, d.extractedPath) + [DataName(ACL, time)])
  {
    DataNameSimple(ACL, time);
    ResolveJoin(s.cwd, d.extractedPath, DataName(ACL, time));
  }

  // Some data file is read and does not parse; the three are read by three calls.
  predicate BadData(s: Sys, w: World, q: Path, time: int) {
    || BadKeys(s, w, q + [DataName(KV, time)])
    || BadQueries(s, Next(s, w), q + [DataName(PQ, time)])
    || BadRules(s, Next(s, Next(s, w)), q + [DataName(ACL, time)])
  }

  lemma FamiliesOr(s: Sys, w: World, d: Draft, time: int)
    ensures LoadFamiliesSpec(s, w, d, time).2 == !BadData(s, w, Resolve(s.cwd, d.extractedPath), time)
  {
    KeysOr(s, w, d, time);
    var k := LoadKVSpec(s, w, d, time);
    QueriesOr(s, k.0, k.1, time);
    var p := LoadPQSpec(s, k.0, k.1, time);
    RulesOr(s, p.0, p.1, time);
  }

  lemma InspectOr(s: Sys, w: World, d: Draft, f: Fields, time: int)
    requires var p := Resolve(s.cwd, d.extractedPath) + [META];
             Legible(s, w, p) && UnmarshalMap(w.fs.files[p]) == Some(f) && StartTimeOf(f) == Some(time)
    ensures InspectSpec(s, w, d).2 ==
            if BadData(s, Next(s, w), Resolve(s.cwd, d.extractedPath), time) then Stopped(Loading) else Completed
  {
    MetaIs(s, w, d);
    var m := LoadMetadataSpec(s, w, d);
    FamiliesOr(s, m.0, m.1, time);
    DataFrom(s, m.0, m.1, time);
  }

  // The archive is unpacked, and its metadata is read and gives this start time.
  ghost predicate Inspected(s: Sys, w: World, cfg: Config, path: string, got: (World, Option<Draft>),
                            x: (World, Draft, bool), f: Fields) {
    && got == DownloadSpec(s, w, cfg, path) && got.1.Some? && x == ExtractSpec(s, got.0, got.1.value) && x.2
    && var p := Resolve(s.cwd, x.1.extractedPath) + [META];
       Legible(s, x.0, p) && UnmarshalMap(x.0.fs.files[p]) == Some(f)
  }

  // Under any schedule: a run whose metadata gives a start time stops at loading
  // exactly if one of the three files named by it is read and does not parse, and
  // then Consul is as it was. A file that is not read is no error.
  lemma LoadingIff(s: Sys, w: World, cfg: Config, path: string, got: (World, Option<Draft>), x: (World, Draft, bool),
                   f: Fields, time: int)
    requires Inspected(s, w, cfg, path, got, x, f) && StartTimeOf(f) == Some(time)
    ensures var r := RunRestoreSpec(s, w, cfg, path);
            && (r.1 == Stopped(Loading) <==> BadData(s, Next(s, x.0), Resolve(s.cwd, x.1.extractedPath), time))
            && (r.1 == Stopped(Loading) ==> Outside(w, r.0))
  {
    InspectOr(s, x.0, x.1, f, time);
    LoadIsInspect(s, got.0, got.1.value, x);
    StopIs(s, got.0, got.1.value, LoadSpec(s, got.0, got.1.value));
    RunRestoreMeaning(s, w, cfg, path);
  }

  // Metadata without a numeric start time is no error either: the run reports
  // success, and has restored nothing.
  lemma UntimedRestoresNothing(s: Sys, w: World, cfg: Config, path: string, got: (World, Option<Draft>),
                               x: (World, Draft, bool), f: Fields)
    requires Inspected(s, w, cfg, path, got, x, f) && StartTimeOf(f) == None
    ensures var r := RunRestoreSpec(s, w, cfg, path); r.1 == Completed && Outside(w, r.0)
  {
    BlankDraft(s, w, cfg, path, got);
    ExtractSpecFrame(s, got.0, got.1.value);
    MetaIs(s, x.0, x.1);
    DownloadFrame(s, w, cfg, path);
    NothingLoaded(s, got.0, got.1.value, x, f);
  }

  lemma BlankDraft(s: Sys, w: World, cfg: Config, path: string, got: (World, Option<Draft>))
    requires got == DownloadSpec(s, w, cfg, path) && got.1.Some?
    ensures Blank(got.1.value)
  {}

  lemma NothingLoaded(s: Sys, w: World, d: Draft, x: (World, Draft, bool), f: Fields)
    requires x == ExtractSpec(s, w, d) && x.2 && Blank(d) && StartTimeOf(f) == None && Outside(w, x.0)
    requires x.1 == d.(extractedPath := d.localPath + EXTRACTED)
    requires LoadMetadataSpec(s, x.0, x.1) == (Next(s, x.0), x.1.(metadata := f), true)
    ensures UnpackSpec(s, w, d).1 == Completed && Outside(w, UnpackSpec(s, w, d).0)
  {
    CleanupFrame(s, Next(s, x.0), x.1.(metadata := f));
  }

  // ---- From the archive, when nothing fails ----

  predicate AllParse(c: Contents) {
    UnmarshalKVs(c.kv).Some? && UnmarshalPQs(c.pq).Some? && UnmarshalACLs(c.acl).Some?
  }

  // A flat archive whose metadata points to the three files restores if and only if
  // all three parse.
  lemma ParsesIff(s: Sys, w: World, cfg: Config, path: string, data: string, c: Contents)
    requires Lawful(s) && FaultFree(s) && Ready(s, w, cfg, path) && IsArchive(s, data, [], c, false)
    requires data == w.objects[(BackupService.PlaceOf(cfg), path)]
    requires UnmarshalMap(c.meta).Some? && StartTimeOf(UnmarshalMap(c.meta).value) == Some(c.start)
    ensures var r := RunRestoreSpec(s, w, cfg, path);
            && r.1 == (if AllParse(c) then Completed else Stopped(Loading))
            && (!AllParse(c) ==> r.0.consul == w.consul)
  {
    if AllParse(c) {
      RestoreFlat(s, w, cfg, path, data, c, UnmarshalKVs(c.kv).value, UnmarshalPQs(c.pq).value,
                  UnmarshalACLs(c.acl).value, c.start, false);
    } else {
      UnparsedStops(s, w, cfg, path, data, c, DownloadSpec(s, w, cfg, path));
    }
  }

  lemma UnparsedStops(s: Sys, w: World, cfg: Config, path: string, data: string, c: Contents,
                      got: (World, Option<Draft>))
    requires Lawful(s) && FaultFree(s) && Ready(s, w, cfg, path) && IsArchive(s, data, [], c, false)
    requires data == w.objects[(BackupService.PlaceOf(cfg), path)] && got == DownloadSpec(s, w, cfg, path)
    requires UnmarshalMap(c.meta).Some? && StartTimeOf(UnmarshalMap(c.meta).value) == Some(c.start) && !AllParse(c)
    ensures var r := RunRestoreSpec(s, w, cfg, path); r.1 == Stopped(Loading) && r.0.consul == w.consul
  {
    Downloaded(s, w, cfg, path, data, [], c, false, ExtractedAt(s, cfg, path), got);
    ExtractLands(s, got.0, got.1.value, ExtractedAt(s, cfg, path), data, [], c, false);
    var x := ExtractSpec(s, got.0, got.1.value);
    UnpackedHas(s, w, cfg, path, data, c, got, x);
    UnparsedIsBad(s, x.0, Resolve(s.cwd, x.1.extractedPath), c, UnmarshalMap(c.meta).value);
    LoadingIff(s, w, cfg, path, got, x, UnmarshalMap(c.meta).value, c.start);
  }

  lemma UnparsedIsBad(s: Sys, w: World, q: Path, c: Contents, f: Fields)
    requires FaultFree(s) && w.alive && At(w.fs, q, c) && UnmarshalMap(c.meta) == Some(f) && !AllParse(c)
    ensures Legible(s, w, q + [META]) && UnmarshalMap(w.fs.files[q + [META]]) == Some(f)
    ensures BadData(s, Next(s, w), q, c.start)
  {}
}
