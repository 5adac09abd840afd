/**
 The service pair in acceptance mode: the archive stays on the local disk, and a
 restore takes it from there.
 */
module ServiceAcceptance {
  import opened Decimal
  import opened Paths
  import opened World
  import opened Config
  import opened ConsulClient
  import opened Snapshots
  import opened RestoreService
  import opened ServiceTrip
  import Float64
  import BackupService
  import BackupFacts

  lemma ArchiveSimple()
    ensures Simple(ARCHIVE) && Simple(ARCHIVE + EXTRACTED)
  {}

  // The local archive, and a directory beside it that accepts its members.
  ghost predicate Kept(z: Sys, w: World, cfg: Config, at: Path, q: Path, data: string, c: Contents, sole: bool) {
    && Lawful(z) && FaultFree(z) && w.alive && cfg.acceptance
    && at == Resolve(z.cwd, cfg.tmpDir) + [ARCHIVE] && q == Resolve(z.cwd, cfg.tmpDir) + [ARCHIVE + EXTRACTED]
    && FileAt(w.fs, at, data) && IsArchive(z, data, [], c, sole) && Accepts(w.fs, q, Inside(z, data))
    && (sole ==> Sole(w.fs, q, c.start))
  }

  lemma AcceptanceDownload(z: Sys, w: World, cfg: Config, path: string, d: Draft)
    requires cfg.acceptance && d == NewDraft(path).(localPath := Join(cfg.tmpDir, ARCHIVE))
    ensures RunRestoreSpec(z, w, cfg, path) == UnpackSpec(z, w, d)
  {}

  lemma KeptWaits(z: Sys, w: World, cfg: Config, at: Path, q: Path, data: string, c: Contents, sole: bool,
                  file: string, draft: Draft)
    requires Kept(z, w, cfg, at, q, data, c, sole) && file == ARCHIVE && draft.localPath == Join(cfg.tmpDir, file)
    ensures Waiting(z, w, draft, q, data, [], c, sole)
  {
    ArchiveSimple();
    ResolveJoin(z.cwd, cfg.tmpDir, file);
    JoinSuffix(z.cwd, cfg.tmpDir, file, EXTRACTED);
    assert q + [] == q;
  }

  lemma RestoreKept(z: Sys, w: World, cfg: Config, path: string, at: Path, q: Path, data: string, c: Contents,
                    d: Lists3, time: int, sole: bool)
    requires Kept(z, w, cfg, at, q, data, c, sole) && Reads(c, d.kvs, d.pqs, d.acls, time) && (time != c.start ==> sole)
    ensures var r := RunRestoreSpec(z, w, cfg, path);
            && r.1 == Completed
            && r.0.consul == if time == c.start then Over(w.consul, d.kvs, d.pqs, d.acls) else w.consul
  {
    var draft := NewDraft(path).(localPath := Join(cfg.tmpDir, ARCHIVE));
    KeptWaits(z, w, cfg, at, q, data, c, sole, ARCHIVE, draft);
    UnpackFlat(z, w, draft, q, data, c, d.kvs, d.pqs, d.acls, time, sole);
    AcceptanceDownload(z, w, cfg, path, draft);
  }

  // A completed acceptance backup, under any schedule, and then a restore on the
  // same disk.
  lemma AcceptanceRoundTrip(s: Sys, start: World, cfg: Config, c: Client, time: int64, end: int64,
                            b: (World, Client, Outcome), z: Sys, w: World, path: string, d: Lists3, q: Path, at: Path)
    requires Lawful(s) && s.layout.Flat? && Tree(start.fs) && '/' !in cfg.hostname && cfg.acceptance
    requires b == BackupService.RunBackupSpec(s, start, cfg, c, time, end) && b.2 == Completed
    requires z == Calm(s, s.cwd) && w.alive && w.fs == b.0.fs && d == CleanLists(ListedBy(s, start))
    requires at == Resolve(s.cwd, cfg.tmpDir) + [ARCHIVE] && q == Resolve(s.cwd, cfg.tmpDir) + [ARCHIVE + EXTRACTED]
    requires at in w.fs.files ==> Accepts(w.fs, q, Inside(z, w.fs.files[at]))
    requires Float64.Representable(time) || (Fresh(start.fs, BackupFacts.StageAt(s, cfg, time)) && Fresh(w.fs, q))
    ensures var r := RunRestoreSpec(z, w, cfg, path);
            && r.1 == Completed
            && r.0.consul == (if Float64.Representable(time) then Over(w.consul, d.kvs, d.pqs, d.acls) else w.consul)
  {
    var sole := !Float64.Representable(time);
    var k := BackupFacts.Taken(s, start, cfg, time, end);
    LeftOnDisk(s, start, cfg, c, time, end, b, z, sole, at);
    TakenBy(s, start, cfg, time, end, d, k);
    if sole {
      FreshSole(w.fs, q, time);
    }
    Float64.RoundExactIff(time);
    RestoreKept(z, w, cfg, path, at, q, w.fs.files[at], k, d, Float64.Round(time), sole);
  }

  lemma LeftOnDisk(s: Sys, start: World, cfg: Config, c: Client, time: int64, end: int64, b: (World, Client, Outcome),
                   z: Sys, sole: bool, at: Path)
    requires Lawful(s) && s.layout.Flat? && Tree(start.fs) && '/' !in cfg.hostname && cfg.acceptance
    requires b == BackupService.RunBackupSpec(s, start, cfg, c, time, end) && b.2 == Completed
    requires z == Calm(s, s.cwd) && at == Resolve(s.cwd, cfg.tmpDir) + [ARCHIVE]
    requires sole ==> Fresh(start.fs, BackupFacts.StageAt(s, cfg, time))
    ensures Lawful(z) && FaultFree(z) && at in b.0.fs.files
    ensures IsArchive(z, b.0.fs.files[at], [], BackupFacts.Taken(s, start, cfg, time, end), sole)
  {
    BackupFacts.RunBackupMeaning(s, start, cfg, c, time, end);
    BackupFacts.TempNames(s, cfg, time);
    var k := BackupFacts.Taken(s, start, cfg, time, end);
    LessSole(s, b.0.fs.files[at], [], k, Fresh(start.fs, BackupFacts.StageAt(s, cfg, time)), sole);
    CalmArchive(s, z, b.0.fs.files[at], [], k, sole);
  }
}
