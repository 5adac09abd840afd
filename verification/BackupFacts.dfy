/** What a run of the backup service leaves behind. */
module BackupFacts {
  import opened Wrappers
  import opened Decimal
  import opened Paths
  import opened Names
  import opened Metadata
  import opened World
  import opened Config
  import opened ConsulClient
  import opened Archiver
  import opened Trees
  import opened Snapshots
  import opened BackupService

  function SumsOf(s: Sys, c: Contents): map<Family, string> {
    map[KV := s.sha256(c.kv), PQ := s.sha256(c.pq), ACL := s.sha256(c.acl)]
  }

  // Metadata that records the checksums of the three data files.
  function MetaFor(s: Sys, cfg: Config, start: int64, c: Contents, end: int64): Meta {
    Meta(s.sha256(c.acl), cfg.version, end, s.sha256(c.kv), cfg.hostname, s.sha256(c.pq), start)
  }

  function StageDir(cfg: Config, start: int): string { Join(cfg.tmpDir, StageName(cfg.hostname, start)) }

  function DataOf(d: Draft): Contents { Contents(d.startTime, d.kvJson, d.pqJson, d.aclJson, "") }

  function ContentsOf(s: Sys, cfg: Config, d: Draft, end: int64): Contents {
    DataOf(d).(meta := MarshalMeta(SERVICE, MetaFor(s, cfg, d.startTime, DataOf(d), end)))
  }

  // ---- Staging ----

  lemma WriteFamilyEffect(s: Sys, w: World, d: Draft, f: Family, json: string)
    ensures var p := Resolve(s.cwd, d.localPath); var r := WriteFamilySpec(s, w, d, f, json);
            && Outside(w, r.0)
            && (r.2 ==> r.0.alive && r.0.fs == Put(w.fs, p + [DataName(f, d.startTime)], json)
                        && r.1 == d.(checksums := d.checksums[f := s.sha256(json)]))
            && (FaultFree(s) && w.alive && Room(w.fs, p) ==> r.2)
  {
    DataNameSimple(f, d.startTime);
    WriteEffect(s, w, d.localPath, DataName(f, d.startTime), json);
  }

  lemma WriteDataEffect(s: Sys, w: World, d: Draft)
    requires d.checksums == map[]
    ensures var p := Resolve(s.cwd, d.localPath); var r := WriteDataSpec(s, w, d);
            && Outside(w, r.0)
            && (r.2 ==>
                && r.0.alive && r.1 == d.(checksums := SumsOf(s, DataOf(d)))
                && r.0.fs == Put(Put(Put(w.fs, p + [DataName(KV, d.startTime)], d.kvJson),
                  p + [DataName(PQ, d.startTime)], d.pqJson), p + [DataName(ACL, d.startTime)], d.aclJson))
            && (FaultFree(s) && w.alive && Room(w.fs, p) ==> r.2)
  {
    WriteFamilyEffect(s, w, d, KV, d.kvJson);
    var k := WriteFamilySpec(s, w, d, KV, d.kvJson);
    WriteFamilyEffect(s, k.0, k.1, PQ, d.pqJson);
    var p := WriteFamilySpec(s, k.0, k.1, PQ, d.pqJson);
    WriteFamilyEffect(s, p.0, p.1, ACL, d.aclJson);
  }

  lemma WriteMetadataEffect(s: Sys, w: World, cfg: Config, d: Draft, end: int64, text: string)
    requires text == MarshalMeta(SERVICE, MetaOf(cfg, d, end))
    ensures var p := Resolve(s.cwd, d.localPath); var r := WriteMetadataSpec(s, w, cfg, d, end);
            && Outside(w, r.0)
            && (r.1 ==> r.0.alive && r.0.fs == Put(w.fs, p + [META], text))
            && (FaultFree(s) && w.alive && Room(w.fs, p) ==> r.1)
  {
    DataNameSimple(KV, d.startTime);
    WriteEffect(s, w, d.localPath, META, text);
  }

  // Staging writes exactly the four files; their metadata holds the checksums.
  lemma StagingEffect(s: Sys, w: World, cfg: Config, d: Draft, end: int64)
    requires d.checksums == map[]
    ensures var c := ContentsOf(s, cfg, d, end); var r := WriteLocalFilesSpec(s, w, cfg, d, end);
            var p := Resolve(s.cwd, StageDir(cfg, d.startTime));
            && Outside(w, r.0)
            && (r.2 ==>
                && r.0.alive && r.0.fs == Staged(w.fs, p, c) && CanMkdir(w.fs, p)
                && r.1 == d.(localPath := StageDir(cfg, d.startTime), checksums := SumsOf(s, c)))
  {
    var d1 := d.(localPath := StageDir(cfg, d.startTime));
    var m := MkdirAt(s, w, Resolve(s.cwd, d1.localPath));
    WriteDataEffect(s, m.0, d1);
    var a := WriteDataSpec(s, m.0, d1);
    if m.1 && a.2 {
      StagingDone(s, w, cfg, d, end, d1, a);
    }
  }

  lemma StagingDone(s: Sys, w: World, cfg: Config, d: Draft, end: int64, d1: Draft, a: (World, Draft, bool))
    requires d.checksums == map[] && d1 == d.(localPath := StageDir(cfg, d.startTime))
    requires var m := MkdirAt(s, w, Resolve(s.cwd, d1.localPath)); m.1 && a == WriteDataSpec(s, m.0, d1) && a.2
    ensures var c := ContentsOf(s, cfg, d, end); var r := WriteLocalFilesSpec(s, w, cfg, d, end);
            && Outside(w, r.0) && r.1 == d1.(checksums := SumsOf(s, c))
            && (r.2 ==> r.0.alive && r.0.fs == Staged(w.fs, Resolve(s.cwd, d1.localPath), c))
  {
    var c := ContentsOf(s, cfg, d, end);
    var p := Resolve(s.cwd, d1.localPath);
    DataDone(s, MkdirAt(s, w, p).0, cfg, d1, end, w.fs, p, c);
    StagingFrom(s, w, cfg, end, a, p, c);
    StagingIs(s, w, cfg, d, end, p, a);
  }

  lemma DataDone(s: Sys, w: World, cfg: Config, d: Draft, end: int64, fs: Fs, p: Path, c: Contents)
    requires d.checksums == map[] && p == Resolve(s.cwd, d.localPath) && w.fs == AddDirs(fs, p)
    requires c == ContentsOf(s, cfg, d, end)
    ensures var a := WriteDataSpec(s, w, d);
            a.2 ==>
            && Outside(w, a.0) && a.1 == d.(checksums := SumsOf(s, c))
            && c.meta == MarshalMeta(SERVICE, MetaOf(cfg, a.1, end))
            && Put(a.0.fs, p + [META], c.meta) == Staged(fs, p, c)
  {
    WriteDataEffect(s, w, d);
    var a := WriteDataSpec(s, w, d);
    if a.2 {
      SumsAreMeta(s, cfg, a.1, c, end);
      StagedPuts(fs, p, c);
    }
  }

  lemma SumsAreMeta(s: Sys, cfg: Config, d: Draft, c: Contents, end: int64)
    requires d.checksums == SumsOf(s, c)
    ensures MetaOf(cfg, d, end) == MetaFor(s, cfg, d.startTime, c, end)
  {}

  lemma StagingIs(s: Sys, w: World, cfg: Config, d: Draft, end: int64, p: Path, a: (World, Draft, bool))
    requires p == Resolve(s.cwd, StageDir(cfg, d.startTime)) && MkdirAt(s, w, p).1
    requires a == WriteDataSpec(s, MkdirAt(s, w, p).0, d.(localPath := StageDir(cfg, d.startTime))) && a.2
    ensures var x := WriteMetadataSpec(s, a.0, cfg, a.1, end);
            WriteLocalFilesSpec(s, w, cfg, d, end) == (x.0, a.1, x.1)
  {}

  lemma StagingFrom(s: Sys, w: World, cfg: Config, end: int64, a: (World, Draft, bool), p: Path, c: Contents)
    requires p == Resolve(s.cwd, a.1.localPath) && Outside(w, a.0)
    requires c.meta == MarshalMeta(SERVICE, MetaOf(cfg, a.1, end))
    requires Put(a.0.fs, p + [META], c.meta) == Staged(w.fs, p, c)
    ensures var x := WriteMetadataSpec(s, a.0, cfg, a.1, end);
            Outside(w, x.0) && (x.1 ==> x.0.alive && x.0.fs == Staged(w.fs, p, c))
  {
    WriteMetadataEffect(s, a.0, cfg, a.1, end, c.meta);
  }

  lemma StagingOk(s: Sys, w: World, cfg: Config, d: Draft, end: int64)
    requires d.checksums == map[] && FaultFree(s) && w.alive
    requires var p := Resolve(s.cwd, StageDir(cfg, d.startTime)); CanMkdir(w.fs, p) && Room(AddDirs(w.fs, p), p)
    ensures WriteLocalFilesSpec(s, w, cfg, d, end).2
  {
    var d1 := d.(localPath := StageDir(cfg, d.startTime));
    var m := Mkdir(s, w, d1.localPath);
    WriteDataEffect(s, m.0, d1);
    var a := WriteDataSpec(s, m.0, d1);
    WriteMetadataOk(s, a.0, cfg, a.1, end, Resolve(s.cwd, d1.localPath));
  }

  lemma WriteMetadataOk(s: Sys, w: World, cfg: Config, d: Draft, end: int64, p: Path)
    requires FaultFree(s) && w.alive && p == Resolve(s.cwd, d.localPath) && Room(w.fs, p)
    ensures WriteMetadataSpec(s, w, cfg, d, end).1
  {
    WriteMetadataEffect(s, w, cfg, d, end, MarshalMeta(SERVICE, MetaOf(cfg, d, end)));
  }

  // ---- The whole run ----

  // The names under the temporary directory.
  function StageAt(s: Sys, cfg: Config, start: int): Path { Resolve(s.cwd, StageDir(cfg, start)) }

  function ArchiveAt(s: Sys, cfg: Config, start: int): Path { Resolve(s.cwd, ArchivePath(cfg, start)) }

  lemma TempNames(s: Sys, cfg: Config, start: int)
    requires '/' !in cfg.hostname
    ensures var tmp := Resolve(s.cwd, cfg.tmpDir);
            var stage, archive := StageName(cfg.hostname, start), ArchiveBase(cfg, start);
            && Simple(stage) && Simple(archive) && stage != archive
            && StageAt(s, cfg, start) == tmp + [stage] && ArchiveAt(s, cfg, start) == tmp + [archive]
            && !(StageAt(s, cfg, start) <= ArchiveAt(s, cfg, start))
            && PrefixOf(s.layout, StageDir(cfg, start)) == (if s.layout.Flat? then [] else [stage])
  {
    var stage, archive := StageName(cfg.hostname, start), ArchiveBase(cfg, start);
    StageNameSimple(cfg.hostname, start);
    ArchiveIsNotStage(cfg, start);
    ResolveJoin(s.cwd, cfg.tmpDir, stage);
    ResolveJoin(s.cwd, cfg.tmpDir, archive);
    BaseJoin(cfg.tmpDir, stage);
    SiblingsApart(Resolve(s.cwd, cfg.tmpDir), stage, archive);
  }

  // A staging directory's name ends in a digit, an archive's does not.
  lemma ArchiveIsNotStage(cfg: Config, start: int)
    ensures StageName(cfg.hostname, start) != ArchiveBase(cfg, start)
  {
    var stage, archive := StageName(cfg.hostname, start), ArchiveBase(cfg, start);
    FormatChars(start);
    assert stage[|stage| - 1] == Format(start)[|Format(start)| - 1];
    assert archive[|archive| - 1] == 'z';
    assert Format(start)[|Format(start)| - 1] in Format(start);
  }

  // What a run that starts in w lists and writes down.
  function Listed(s: Sys, w: World, start: int64): Draft {
    NewDraft(start).(kvData := s.keys(w.consul, w.calls), pqData := s.pqs(w.consul, w.calls + 1),
                     aclData := s.acls(w.consul, w.calls + 2))
  }

  function Taken(s: Sys, w: World, cfg: Config, start: int64, end: int64): Contents {
    ContentsOf(s, cfg, SerializeSpec(Listed(s, w, start)), end)
  }

  // Three fresh listings or an error; never what an earlier run left cached.
  lemma CollectFresh(s: Sys, w: World, c: Client, start: int64)
    ensures var r := CollectSpec(s, w, c, start);
            && Outside(w, r.0) && r.0.fs == w.fs
            && (r.2.Some? <==>
               w.alive && s.fault(w.calls).Fine? && s.fault(w.calls + 1).Fine? && s.fault(w.calls + 2).Fine?)
            && (r.2.Some? ==> r.2.value == Listed(s, w, start) && r.0.alive)
  {}

  predicate HasPlace(cfg: Config) { cfg.storage.Some? && BucketOf(cfg).Some? }

  // Reading the archive back and uploading it. An upload that is reported as
  // failed may have stored all of it, and nothing else.
  lemma UploadEffect(s: Sys, w: World, cfg: Config, d: Draft)
    ensures var r := UploadSpec(s, w, cfg, d); var p := Resolve(s.cwd, d.remotePath);
            && r.0.fs == w.fs && r.0.consul == w.consul
            && (r.1 && !cfg.acceptance ==>
                && r.0.alive && p in w.fs.files && HasPlace(cfg)
                && r.0.objects == w.objects[(PlaceOf(cfg), KeyOf(s, cfg, d.startTime, d.remotePath)) := w.fs.files[p]])
            && (!r.1 && r.0.objects != w.objects ==>
                && p in w.fs.files && HasPlace(cfg)
                && r.0.objects == w.objects[(PlaceOf(cfg), KeyOf(s, cfg, d.startTime, d.remotePath)) := w.fs.files[p]])
            && (cfg.acceptance ==> r.0.objects == w.objects)
            && (FaultFree(s) && w.alive && p in w.fs.files && HasPlace(cfg) ==> r.1)
  {}

  // The object a run uploads to.
  function Target(s: Sys, cfg: Config, start: int): Place
    requires HasPlace(cfg)
  {
    (PlaceOf(cfg), KeyOf(s, cfg, start, ArchivePath(cfg, start)))
  }

  lemma StagingKeepsTree(s: Sys, w: World, cfg: Config, d: Draft, end: int64)
    requires Tree(w.fs)
    ensures Tree(WriteLocalFilesSpec(s, w, cfg, d, end).0.fs)
  {
    var d1 := d.(localPath := StageDir(cfg, d.startTime));
    var m := Mkdir(s, w, d1.localPath);
    MkdirKeepsTree(s, w, Resolve(s.cwd, d1.localPath));
    if m.1 {
      DataKeepsTree(s, m.0, d1);
      var a := WriteDataSpec(s, m.0, d1);
      WriteKeepsTree(s, a.0, Resolve(s.cwd, Join(a.1.localPath, META)), MarshalMeta(SERVICE, MetaOf(cfg, a.1, end)));
    }
  }

  lemma FamilyKeepsTree(s: Sys, w: World, d: Draft, f: Family, json: string)
    requires Tree(w.fs)
    ensures Tree(WriteFamilySpec(s, w, d, f, json).0.fs)
  {
    WriteKeepsTree(s, w, Resolve(s.cwd, Join(d.localPath, DataName(f, d.startTime))), json);
  }

  lemma DataKeepsTree(s: Sys, w: World, d: Draft)
    requires Tree(w.fs)
    ensures Tree(WriteDataSpec(s, w, d).0.fs)
  {
    FamilyKeepsTree(s, w, d, KV, d.kvJson);
    var k := WriteFamilySpec(s, w, d, KV, d.kvJson);
    FamilyKeepsTree(s, k.0, k.1, PQ, d.pqJson);
    var p := WriteFamilySpec(s, k.0, k.1, PQ, d.pqJson);
    FamilyKeepsTree(s, p.0, p.1, ACL, d.aclJson);
  }

  // ---- From archiving on ----

  lemma CleanupEffect(s: Sys, w: World, cfg: Config, d: Draft)
    ensures Outside(w, CleanupSpec(s, w, cfg, d))
  {}

  // What a completed run has uploaded.
  ghost predicate Uploaded(s: Sys, cfg: Config, start: int, c: Contents, sole: bool, before: World, after: World) {
    && HasPlace(cfg)
    && var key := Target(s, cfg, start);
    && key in after.objects && after.objects == before.objects[key := after.objects[key]]
    && IsArchive(s, after.objects[key], PrefixOf(s.layout, StageDir(cfg, start)), c, sole)
  }

  // In acceptance mode the archive stays on the disk instead.
  ghost predicate Kept(s: Sys, cfg: Config, start: int, c: Contents, sole: bool, fs: Fs) {
    var q := ArchiveAt(s, cfg, start);
    q in fs.files && IsArchive(s, fs.files[q], PrefixOf(s.layout, StageDir(cfg, start)), c, sole)
  }

  ghost predicate Ended(s: Sys, cfg: Config, start: int, c: Contents, sole: bool, before: World, r: (World, Outcome)) {
    && r.0.consul == before.consul
    && (r.1 == Completed && !cfg.acceptance ==> Uploaded(s, cfg, start, c, sole, before, r.0))
    && (r.0.objects == before.objects || (!cfg.acceptance && Uploaded(s, cfg, start, c, sole, before, r.0)))
    && (r.1 == Completed && cfg.acceptance ==> Kept(s, cfg, start, c, sole, r.0.fs))
    && LeftBehind(s, cfg, start, c, sole, r)
  }

  // A run that fails to archive or to upload leaves what it has made where it is.
  ghost predicate LeftBehind(s: Sys, cfg: Config, start: int, c: Contents, sole: bool, r: (World, Outcome)) {
    && (r.1 == Stopped(Archiving) ==> At(r.0.fs, StageAt(s, cfg, start), c))
    && (r.1 == Stopped(Uploading) ==>
          At(r.0.fs, StageAt(s, cfg, start), c) && Kept(s, cfg, start, c, sole, r.0.fs))
  }

  // What a completed run leaves on the disk, whatever was there before: with the
  // temporary directory, and if its removals go through nothing else of its own but,
  // in acceptance mode, the archive.
  ghost predicate Conserved(s: Sys, cfg: Config, start: int, fs: Fs, r: (World, Outcome)) {
    var tmp, p, q := Resolve(s.cwd, cfg.tmpDir), StageAt(s, cfg, start), ArchiveAt(s, cfg, start);
    r.1 == Completed ==>
      && (!cfg.acceptance && LastTwoFine(s, r.0) ==> r.0.fs == Without(AddDirs(fs, tmp), p, q))
      && (cfg.acceptance && LastFine(s, r.0) ==>
            Fresh(r.0.fs, p) && Drop(r.0.fs, q) == Without(AddDirs(fs, tmp), p, q))
  }

  lemma WipeThenRemove(s: Sys, w: World, p: Path, q: Path)
    requires w.alive && CanRemove(Wipe(w.fs, p), q)
    ensures var r := RemoveAt(s, WipeAt(s, w, p).0, q).0;
            LastTwoFine(s, r) ==> r.fs == Without(w.fs, p, q)
  {
    var a := WipeAt(s, w, p).0;
    var r := RemoveAt(s, a, q).0;
    assert r.calls - 2 <= w.calls < r.calls;
    assert a.alive ==> r.calls - 2 <= w.calls + 1 < r.calls;
  }

  lemma TempNotEmpty(cfg: Config, start: int)
    requires '/' !in cfg.hostname
    ensures StageDir(cfg, start) != "" && ArchivePath(cfg, start) != ""
  {
    StageNameSimple(cfg.hostname, start);
    JoinSimple(cfg.tmpDir, StageName(cfg.hostname, start));
    JoinSimple(cfg.tmpDir, ArchiveBase(cfg, start));
  }

  lemma CleanupRemoves(s: Sys, w: World, cfg: Config, d: Draft, p: Path, q: Path)
    requires d.localPath != "" && d.remotePath != "" && !cfg.acceptance
    requires p == Resolve(s.cwd, d.localPath) && q == Resolve(s.cwd, d.remotePath)
    ensures CleanupSpec(s, w, cfg, d) == RemoveAt(s, WipeAt(s, w, p).0, q).0
  {}

  // The staging directory goes first: killed between the two, a process leaves the
  // archive.
  lemma CleanupOrder(s: Sys, w: World, cfg: Config, d: Draft)
    requires d.localPath != "" && d.remotePath != "" && !cfg.acceptance && w.alive
    requires s.fault(w.calls) == Fine && s.fault(w.calls + 1) == Crash
    ensures var r := CleanupSpec(s, w, cfg, d); r.fs == Wipe(w.fs, Resolve(s.cwd, d.localPath)) && !r.alive
  {}

  lemma SendMeaning(s: Sys, w: World, cfg: Config, d: Draft, c: Contents, sole: bool)
    requires d.remotePath == ArchivePath(cfg, d.startTime) && d.localPath == StageDir(cfg, d.startTime)
    requires !(StageAt(s, cfg, d.startTime) <= ArchiveAt(s, cfg, d.startTime))
    requires At(w.fs, StageAt(s, cfg, d.startTime), c) && Kept(s, cfg, d.startTime, c, sole, w.fs)
    ensures Ended(s, cfg, d.startTime, c, sole, w, SendSpec(s, w, cfg, d))
  {
    UploadEffect(s, w, cfg, d);
    var sent := UploadSpec(s, w, cfg, d);
    CleanupEffect(s, sent.0, cfg, d);
    if cfg.acceptance {
      AcceptanceKeeps(s, w, cfg, d, ArchiveAt(s, cfg, d.startTime));
    }
  }

  // The cleanup of an acceptance run removes the staging directory only.
  lemma AcceptanceKeeps(s: Sys, w: World, cfg: Config, d: Draft, q: Path)
    requires cfg.acceptance && q in w.fs.files && !(Resolve(s.cwd, d.localPath) <= q)
    ensures var fs := CleanupSpec(s, w, cfg, d).fs; q in fs.files && fs.files[q] == w.fs.files[q]
  {}

  lemma SendConserves(s: Sys, w: World, cfg: Config, d: Draft, c: Contents, fs: Fs, data: string)
    requires '/' !in cfg.hostname && w.alive
    requires d.remotePath == ArchivePath(cfg, d.startTime) && d.localPath == StageDir(cfg, d.startTime)
    requires w.fs == Put(Staged(fs, StageAt(s, cfg, d.startTime), c), ArchiveAt(s, cfg, d.startTime), data)
    requires ArchiveAt(s, cfg, d.startTime) !in Staged(fs, StageAt(s, cfg, d.startTime), c).dirs
    ensures Conserved(s, cfg, d.startTime, fs, SendSpec(s, w, cfg, d))
  {
    TempNames(s, cfg, d.startTime);
    TempNotEmpty(cfg, d.startTime);
    var tmp, p, q := Resolve(s.cwd, cfg.tmpDir), StageAt(s, cfg, d.startTime), ArchiveAt(s, cfg, d.startTime);
    PutGone(Staged(fs, p, c), p, q, data);
    StagedGone(fs, tmp, StageName(cfg.hostname, d.startTime), c, q);
    UploadEffect(s, w, cfg, d);
    if cfg.acceptance {
      AcceptanceRemoves(s, w, cfg, d, p, q);
    } else {
      SendThenRemove(s, w, cfg, d, p, q, UploadSpec(s, w, cfg, d));
    }
  }

  lemma PutGone(fs: Fs, p: Path, q: Path, data: string)
    requires !(p <= q) && q !in fs.dirs
    ensures Without(Put(fs, q, data), p, q) == Without(fs, p, q) && CanRemove(Wipe(Put(fs, q, data), p), q)
  {
    assert Without(Put(fs, q, data), p, q).files == Without(fs, p, q).files;
  }

  lemma SendThenRemove(s: Sys, w: World, cfg: Config, d: Draft, p: Path, q: Path, sent: (World, bool))
    requires d.localPath != "" && d.remotePath != "" && !cfg.acceptance
    requires p == Resolve(s.cwd, d.localPath) && q == Resolve(s.cwd, d.remotePath) && CanRemove(Wipe(w.fs, p), q)
    requires sent == UploadSpec(s, w, cfg, d) && sent.0.fs == w.fs && (sent.1 ==> sent.0.alive)
    ensures var r := SendSpec(s, w, cfg, d);
            r.1 == Completed && LastTwoFine(s, r.0) ==> r.0.fs == Without(w.fs, p, q)
  {
    if sent.1 {
      CleanupRemoves(s, sent.0, cfg, d, p, q);
      WipeThenRemove(s, sent.0, p, q);
    }
  }

  // An acceptance run removes its staging directory, and only that.
  lemma AcceptanceRemoves(s: Sys, w: World, cfg: Config, d: Draft, p: Path, q: Path)
    requires d.localPath != "" && cfg.acceptance && p == Resolve(s.cwd, d.localPath)
    requires w.alive
    ensures var r := SendSpec(s, w, cfg, d).0;
            LastFine(s, r) ==> Fresh(r.fs, p) && Drop(r.fs, q) == Without(w.fs, p, q)
  {
    assert SendSpec(s, w, cfg, d).0 == WipeAt(s, w, p).0;
    assert WipeAt(s, w, p).0.calls - 1 == w.calls;
  }

  lemma PackMeaning(s: Sys, w: World, cfg: Config, d: Draft, c: Contents, fs: Fs)
    requires Lawful(s) && '/' !in cfg.hostname
    requires Tree(w.fs) && w.fs == Staged(fs, StageAt(s, cfg, d.startTime), c)
    requires d.localPath == StageDir(cfg, d.startTime)
    ensures Ended(s, cfg, d.startTime, c, Fresh(fs, StageAt(s, cfg, d.startTime)), w, PackSpec(s, w, cfg, d))
    ensures Conserved(s, cfg, d.startTime, fs, PackSpec(s, w, cfg, d))
  {
    var sole := Fresh(fs, StageAt(s, cfg, d.startTime));
    StagedAt(fs, StageAt(s, cfg, d.startTime), c);
    if sole {
      FreshSole(fs, StageAt(s, cfg, d.startTime), c.start);
      StagedSole(fs, StageAt(s, cfg, d.startTime), c);
    }
    TempNames(s, cfg, d.startTime);
    TarGzEffect(s, w, ArchivePath(cfg, d.startTime), d.localPath);
    var packed := CompressSpec(s, w, cfg, d);
    assert forall n: string :: StageAt(s, cfg, d.startTime) <= StageAt(s, cfg, d.startTime) + [n];
    TarGzKeepsFiles(s, w, ArchivePath(cfg, d.startTime), d.localPath, StageAt(s, cfg, d.startTime), c);
    if packed.2 {
      TarGzArchive(s, w, ArchivePath(cfg, d.startTime), d.localPath, c, sole);
      SendMeaning(s, packed.0, cfg, packed.1, c, sole);
      SendConserves(s, packed.0, cfg, packed.1, c, fs, packed.0.fs.files[ArchiveAt(s, cfg, d.startTime)]);
    }
  }

  lemma StageMeaning(s: Sys, w: World, cfg: Config, d: Draft, end: int64, c: Contents, before: World)
    requires Lawful(s) && '/' !in cfg.hostname
    requires Tree(w.fs) && d.checksums == map[] && c == ContentsOf(s, cfg, d, end) && Outside(before, w)
    ensures Ended(s, cfg, d.startTime, c, Fresh(w.fs, StageAt(s, cfg, d.startTime)), before,
            StageSpec(s, w, cfg, d, end))
    ensures Conserved(s, cfg, d.startTime, w.fs, StageSpec(s, w, cfg, d, end))
  {
    StagingEffect(s, w, cfg, d, end);
    StagingKeepsTree(s, w, cfg, d, end);
    var staged := WriteLocalFilesSpec(s, w, cfg, d, end);
    if staged.2 {
      PackMeaning(s, staged.0, cfg, staged.1, c, w.fs);
    }
  }

  lemma RunFrom(s: Sys, w: World, cfg: Config, c: Client, start: int64, end: int64, k: Contents, d: Draft,
                collected: (World, Client, Option<Draft>))
    requires Lawful(s) && Tree(w.fs) && '/' !in cfg.hostname
    requires collected == CollectSpec(s, w, c, start) && collected.0.fs == w.fs && Outside(w, collected.0)
    requires collected.2.Some? ==> d == SerializeSpec(collected.2.value)
    requires d.checksums == map[] && d.startTime == start && k == ContentsOf(s, cfg, d, end)
    ensures var r := RunBackupSpec(s, w, cfg, c, start, end);
            Ended(s, cfg, start, k, Fresh(w.fs, StageAt(s, cfg, start)), w, (r.0, r.2))
              && Conserved(s, cfg, start, w.fs, (r.0, r.2))
  {
    StageMeaning(s, collected.0, cfg, d, end, k, w);
  }

  // Under any schedule: a run never writes to Consul; all it can change in the
  // object store is one object, which becomes an archive of the run's own fresh
  // listing whose metadata holds the checksums of the archived data, and is one if
  // the run completes. In acceptance mode it leaves that archive on the disk
  // instead.
  lemma RunBackupMeaning(s: Sys, w: World, cfg: Config, c: Client, start: int64, end: int64)
    requires Lawful(s) && Tree(w.fs) && '/' !in cfg.hostname
    ensures var r := RunBackupSpec(s, w, cfg, c, start, end);
            && Ended(s, cfg, start, Taken(s, w, cfg, start, end), Fresh(w.fs, StageAt(s, cfg, start)), w, (r.0, r.2))
            && Conserved(s, cfg, start, w.fs, (r.0, r.2))
  {
    CollectFresh(s, w, c, start);
    RunFrom(s, w, cfg, c, start, end, Taken(s, w, cfg, start, end), SerializeSpec(Listed(s, w, start)),
            CollectSpec(s, w, c, start));
  }

  // ---- When nothing fails ----

  // Nothing is in the way of the staging directory, its files, or the archive.
  ghost predicate Ready(s: Sys, w: World, cfg: Config, start: int) {
    var p := StageAt(s, cfg, start);
    && w.alive && (cfg.acceptance || HasPlace(cfg)) && '/' !in cfg.hostname
    && CanMkdir(w.fs, p) && Room(AddDirs(w.fs, p), p) && ArchiveAt(s, cfg, start) !in w.fs.dirs
  }

  lemma ReadyArchive(fs: Fs, tmp: Path, a: string, b: string)
    requires a != b && tmp + [b] !in fs.dirs
    ensures CanWrite(AddDirs(fs, tmp + [a]), tmp + [b])
  {
    var p, q := tmp + [a], tmp + [b];
    SiblingsApart(tmp, a, b);
    forall i | 0 <= i <= |p| ensures p[..i] != q {
      assert p[..i] <= p;
    }
    assert q[..|q| - 1] == tmp == p[..|tmp|];
  }

  lemma SendOk(s: Sys, w: World, cfg: Config, d: Draft)
    requires FaultFree(s) && w.alive && (cfg.acceptance || HasPlace(cfg))
    requires Resolve(s.cwd, d.remotePath) in w.fs.files
    ensures var r := SendSpec(s, w, cfg, d); r.1 == Completed && r.0.alive
  {
    UploadEffect(s, w, cfg, d);
  }

  lemma PackOk(s: Sys, w: World, cfg: Config, d: Draft)
    requires FaultFree(s) && w.alive && (cfg.acceptance || HasPlace(cfg))
    requires CanWrite(w.fs, ArchiveAt(s, cfg, d.startTime)) && Resolve(s.cwd, d.localPath) in w.fs.dirs
    ensures var r := PackSpec(s, w, cfg, d); r.1 == Completed && r.0.alive
  {
    TarGzEffect(s, w, ArchivePath(cfg, d.startTime), d.localPath);
    var packed := CompressSpec(s, w, cfg, d);
    SendOk(s, packed.0, cfg, packed.1);
  }

  lemma StageOk(s: Sys, w: World, cfg: Config, d: Draft, end: int64)
    requires FaultFree(s) && Ready(s, w, cfg, d.startTime) && d.checksums == map[]
    ensures var r := StageSpec(s, w, cfg, d, end); r.1 == Completed && r.0.alive
  {
    var at := StageAt(s, cfg, d.startTime);
    TempNames(s, cfg, d.startTime);
    ReadyArchive(w.fs, Resolve(s.cwd, cfg.tmpDir), StageName(cfg.hostname, d.startTime), ArchiveBase(cfg, d.startTime));
    StagingOk(s, w, cfg, d, end);
    StagingEffect(s, w, cfg, d, end);
    var staged := WriteLocalFilesSpec(s, w, cfg, d, end);
    StagedAccepts(w.fs, at, ContentsOf(s, cfg, d, end), ArchiveAt(s, cfg, d.startTime));
    PackOk(s, staged.0, cfg, staged.1);
  }

  lemma StagedAccepts(fs: Fs, p: Path, c: Contents, q: Path)
    requires CanWrite(AddDirs(fs, p), q)
    ensures CanWrite(Staged(fs, p, c), q) && p in Staged(fs, p, c).dirs
  {
    assert p == p[..|p|];
  }

  // With nothing failing and nothing in the way a run completes.
  lemma RunBackupCompletes(s: Sys, w: World, cfg: Config, c: Client, start: int64, end: int64)
    requires FaultFree(s) && Ready(s, w, cfg, start)
    ensures var r := RunBackupSpec(s, w, cfg, c, start, end); r.2 == Completed && r.0.alive
  {
    CollectFresh(s, w, c, start);
    var d := SerializeSpec(Listed(s, w, start));
    StageOk(s, CollectSpec(s, w, c, start).0, cfg, d, end);
  }

  lemma AddDirsSame(fs: Fs, p: Path)
    requires Tree(fs)
    ensures AddDirs(fs, p) == fs <==> p in fs.dirs
  {
    assert p == p[..|p|];
    if p in fs.dirs {
      assert Ancestors(p) <= fs.dirs;
    }
  }

  // Such a run leaves the very file system it found, if the temporary directory
  // was there.
  lemma BackupLeavesNoTrace(s: Sys, w: World, cfg: Config, c: Client, start: int64, end: int64)
    requires Lawful(s) && FaultFree(s) && Tree(w.fs) && Ready(s, w, cfg, start) && !cfg.acceptance
    requires Fresh(w.fs, StageAt(s, cfg, start)) && Fresh(w.fs, ArchiveAt(s, cfg, start))
    ensures RunBackupSpec(s, w, cfg, c, start, end).0.fs == w.fs <==> Resolve(s.cwd, cfg.tmpDir) in w.fs.dirs
  {
    RunBackupCompletes(s, w, cfg, c, start, end);
    RunBackupMeaning(s, w, cfg, c, start, end);
    var r := RunBackupSpec(s, w, cfg, c, start, end);
    NoTrace(s, w, cfg, start, (r.0, r.2));
  }

  lemma NoTrace(s: Sys, w: World, cfg: Config, start: int, r: (World, Outcome))
    requires FaultFree(s) && Tree(w.fs) && '/' !in cfg.hostname && !cfg.acceptance && r.1 == Completed
    requires Conserved(s, cfg, start, w.fs, r)
    requires Fresh(w.fs, StageAt(s, cfg, start)) && Fresh(w.fs, ArchiveAt(s, cfg, start))
    ensures r.0.fs == w.fs <==> Resolve(s.cwd, cfg.tmpDir) in w.fs.dirs
  {
    TempNames(s, cfg, start);
    Unneeded(w.fs, Resolve(s.cwd, cfg.tmpDir), StageName(cfg.hostname, start), ArchiveBase(cfg, start));
    AddDirsSame(w.fs, Resolve(s.cwd, cfg.tmpDir));
  }

  // A run that fails while staging leaves the staging directory behind too.
  lemma StagingStaysBehind(s: Sys, w: World, cfg: Config, c: Client, start: int64, end: int64)
    requires CanMkdir(w.fs, StageAt(s, cfg, start)) && s.fault(w.calls + 3).Fine?
    ensures RunBackupSpec(s, w, cfg, c, start, end).2 == Stopped(Staging) ==>
              StageAt(s, cfg, start) in RunBackupSpec(s, w, cfg, c, start, end).0.fs.dirs
  {
    CollectFresh(s, w, c, start);
    var collected := CollectSpec(s, w, c, start);
    if collected.2.Some? {
      CollectedCalls(s, w, c, start);
      StagingDirs(s, collected.0, cfg, SerializeSpec(collected.2.value), end);
      StagingStops(s, collected.0, cfg, SerializeSpec(collected.2.value), end);
    }
  }

  lemma CollectedCalls(s: Sys, w: World, c: Client, start: int64)
    ensures CollectSpec(s, w, c, start).2.Some? ==> CollectSpec(s, w, c, start).0.calls == w.calls + 3
  {}

  // Writing a file makes and removes no directory.
  lemma FamilyDirs(s: Sys, w: World, d: Draft, f: Family, json: string)
    ensures WriteFamilySpec(s, w, d, f, json).0.fs.dirs == w.fs.dirs
  {}

  lemma MetadataDirs(s: Sys, w: World, cfg: Config, d: Draft, end: int64)
    ensures WriteMetadataSpec(s, w, cfg, d, end).0.fs.dirs == w.fs.dirs
  {}

  lemma DataDirs(s: Sys, w: World, d: Draft)
    ensures WriteDataSpec(s, w, d).0.fs.dirs == w.fs.dirs
  {
    FamilyDirs(s, w, d, KV, d.kvJson);
    var k := WriteFamilySpec(s, w, d, KV, d.kvJson);
    FamilyDirs(s, k.0, k.1, PQ, d.pqJson);
    var p := WriteFamilySpec(s, k.0, k.1, PQ, d.pqJson);
    FamilyDirs(s, p.0, p.1, ACL, d.aclJson);
  }

  lemma StagingDirs(s: Sys, w: World, cfg: Config, d: Draft, end: int64)
    requires CanMkdir(w.fs, StageAt(s, cfg, d.startTime)) && Up(s, w)
    ensures StageAt(s, cfg, d.startTime) in WriteLocalFilesSpec(s, w, cfg, d, end).0.fs.dirs
  {
    var p := StageAt(s, cfg, d.startTime);
    assert p == p[..|p|];
    var d1 := d.(localPath := StageDir(cfg, d.startTime));
    DataDirs(s, Made(s, w, p), d1);
    var a := WriteDataSpec(s, Made(s, w, p), d1);
    MetadataDirs(s, a.0, cfg, a.1, end);
  }

  lemma StagingStops(s: Sys, w: World, cfg: Config, d: Draft, end: int64)
    ensures StageSpec(s, w, cfg, d, end).1 == Stopped(Staging) ==>
              StageSpec(s, w, cfg, d, end).0 == WriteLocalFilesSpec(s, w, cfg, d, end).0
  {}

  // ---- Where the object is ----

  // The prefix in use, the bucket's name (S3 before GCS), and the object's name,
  // spelled out.
  function PrefixUsed(cfg: Config): string { if cfg.objectPrefix == "" then "backups" else cfg.objectPrefix }

  function BucketUsed(cfg: Config): string { if cfg.s3Bucket != "" then cfg.s3Bucket else cfg.gcsBucket }

  function Spelled(prefix: string, d: Date, host: string, start: int): string {
    prefix + "/" + Format(d.year) + "/" + Format(d.month) + "/" + Format(d.day) + "/" +
    (host + ".consul.snapshot." + Format(start) + ".tar.gz")
  }

  lemma TargetIs(s: Sys, cfg: Config, start: int)
    requires '/' !in cfg.hostname && !cfg.acceptance
    ensures HasPlace(cfg) <==> cfg.storage.Some? && BucketUsed(cfg) != ""
    ensures HasPlace(cfg) ==>
            Target(s, cfg, start) == (Bucket(cfg.storage.value, BucketUsed(cfg)),
                                      Spelled(PrefixUsed(cfg), s.date(start), cfg.hostname, start))
  {
    StageNameSimple(cfg.hostname, start);
    BaseJoin(cfg.tmpDir, ArchiveName(cfg.hostname, start));
  }

  // A run that completes has changed one object: in the bucket configured, S3
  // before GCS, under prefix, day, host and start time.
  lemma ObjectPlace(s: Sys, w: World, cfg: Config, c: Client, start: int64, end: int64, r: (World, Client, Outcome))
    requires Lawful(s) && Tree(w.fs) && '/' !in cfg.hostname && !cfg.acceptance
    requires r == RunBackupSpec(s, w, cfg, c, start, end) && r.2 == Completed
    ensures cfg.storage.Some? && BucketUsed(cfg) != ""
    ensures var k := (Bucket(cfg.storage.value, BucketUsed(cfg)),
                      Spelled(PrefixUsed(cfg), s.date(start), cfg.hostname, start));
            k in r.0.objects && r.0.objects == w.objects[k := r.0.objects[k]]
  {
    RunBackupMeaning(s, w, cfg, c, start, end);
    TargetIs(s, cfg, start);
  }

  // Two configurations' objects have the same name exactly if the prefix in use, the
  // host and the start time are the same.
  lemma TargetsAgreeIff(s: Sys, cfg: Config, start: int, cfg': Config, start': int)
    requires '/' !in cfg.hostname && !cfg.acceptance && HasPlace(cfg)
    requires '/' !in cfg'.hostname && !cfg'.acceptance && HasPlace(cfg')
    ensures Target(s, cfg, start).1 == Target(s, cfg', start').1 <==>
            PrefixUsed(cfg) == PrefixUsed(cfg') && cfg.hostname == cfg'.hostname && start == start'
  {
    TargetIs(s, cfg, start);
    TargetIs(s, cfg', start');
    if Target(s, cfg, start).1 == Target(s, cfg', start').1 {
      ObjectKeyInjective(s.date, PrefixUsed(cfg), cfg.hostname, start, PrefixUsed(cfg'), cfg'.hostname, start');
    }
  }
}
