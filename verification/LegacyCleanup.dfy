/**
 What a legacy backup leaves on the disk: nothing of its own, if it completes and
 its removals go through; and so for every history of a daemon that never fails.
 */
module LegacyCleanup {
  import opened Decimal
  import opened Paths
  import opened Names
  import opened Metadata
  import opened World
  import opened Config
  import opened ConsulClient
  import opened Snapshots
  import opened LegacyBackup
  import opened LegacyBackupFacts
  import opened Daemon

  // ---- One run ----

  // If the run completes and its last two calls, the removals, go through, the disk
  // is this one without the archive and without the staging directory.
  ghost predicate Cleaned(s: Sys, cfg: Config, start: int, fs: Fs, r: (World, bool)) {
    !cfg.acceptance && r.1 && r.0.alive && LastTwoFine(s, r.0) ==>
      r.0.fs == Without(fs, StageAt(s, cfg, start), ArchiveAt(s, cfg, start))
  }

  lemma CleanedAs(s: Sys, cfg: Config, start: int, fs: Fs, fs': Fs, r: (World, bool))
    requires Without(fs, StageAt(s, cfg, start), ArchiveAt(s, cfg, start)) ==
             Without(fs', StageAt(s, cfg, start), ArchiveAt(s, cfg, start))
    requires Cleaned(s, cfg, start, fs', r)
    ensures Cleaned(s, cfg, start, fs, r)
  {}

  lemma BothRemoved(s: Sys, w: World, p: Path, q: Path)
    requires w.alive && q in w.fs.files
    ensures var r := WipeAt(s, RemoveAt(s, w, q).0, p).0;
            r.alive && LastTwoFine(s, r) ==> r.fs == Without(w.fs, p, q)
  {
    DropWipe(w.fs, p, q);
    var r := WipeAt(s, RemoveAt(s, w, q).0, p).0;
    if r.alive {
      assert r.calls - 2 <= w.calls < r.calls && r.calls - 2 <= w.calls + 1 < r.calls;
    }
  }

  lemma PostProcessCleans(s: Sys, w: World, cfg: Config, d: Draft)
    requires ArchiveAt(s, cfg, d.startTime) in w.fs.files
    requires d.localFilePath == StageDir(cfg, d.startTime) && d.fullFilename == ArchivePath(cfg, d.startTime)
    ensures Cleaned(s, cfg, d.startTime, w.fs, PostProcessSpec(s, w, d))
  {
    var a := PutKV(s, w, ACK_KEY, FormatBytes(d.startTime));
    if a.1 && a.0.alive {
      BothRemoved(s, a.0, StageAt(s, cfg, d.startTime), ArchiveAt(s, cfg, d.startTime));
    }
  }

  // The acknowledgement comes first, then the archive goes, then the staging directory.
  lemma PostProcessOrder(s: Sys, w: World, d: Draft)
    requires w.alive && CanRemove(w.fs, Resolve(s.cwd, d.fullFilename))
    ensures s.fault(w.calls) == Fine && s.fault(w.calls + 1) == Crash ==>
              var r := PostProcessSpec(s, w, d).0; r.fs == w.fs && ACK_KEY in r.consul.kv
    ensures s.fault(w.calls) == Fine && s.fault(w.calls + 1) == Fine && s.fault(w.calls + 2) == Crash ==>
              PostProcessSpec(s, w, d).0.fs == Drop(w.fs, Resolve(s.cwd, d.fullFilename))
  {}

  lemma DeliverCleans(s: Sys, w: World, cfg: Config, d: Draft)
    requires ArchiveAt(s, cfg, d.startTime) in w.fs.files
    requires d.localFilePath == StageDir(cfg, d.startTime) && d.fullFilename == ArchivePath(cfg, d.startTime)
    ensures Cleaned(s, cfg, d.startTime, w.fs, DeliverSpec(s, w, cfg, d))
  {
    if !cfg.acceptance {
      var key := RemotePath(s, cfg, d.startTime, d.fullFilename);
      RemoteEffect(s, w, cfg, d, key, ArchiveAt(s, cfg, d.startTime));
      var r := RemoteSpec(s, w, cfg, d);
      if r.2 {
        PostProcessCleans(s, r.0, cfg, r.1);
      }
    }
  }

  // Compressing touches nothing but the archive.
  lemma CompressOnly(s: Sys, w: World, cfg: Config, d: Draft, q: Path, r: (World, Draft, bool))
    requires q == ArchiveAt(s, cfg, d.startTime) && r == CompressSpec(s, w, cfg, d) && r.2
    ensures q in r.0.fs.files && Drop(r.0.fs, q) == Drop(w.fs, q)
    ensures r.1 == d.(fullFilename := ArchivePath(cfg, d.startTime))
  {
    var m := RemoveAt(s, w, q).0;
    TarGzEffect(s, m, ArchivePath(cfg, d.startTime), d.localFilePath);
    assert Drop(r.0.fs, q).files == Drop(m.fs, q).files == Drop(w.fs, q).files;
  }

  lemma ArchiveCleans(s: Sys, w: World, cfg: Config, d: Draft, t: Tick, c: Contents, p: (World, Draft, bool))
    requires Lawful(s) && Tree(w.fs) && '/' !in cfg.hostname && At(w.fs, StageAt(s, cfg, d.startTime), c)
    requires d.localFilePath == StageDir(cfg, d.startTime) && p == CompressSpec(s, w, cfg, d) && p.2
    ensures Cleaned(s, cfg, d.startTime, w.fs, DeliverSpec(s, EncryptStepSpec(s, p.0, cfg, p.1, t), cfg, p.1))
  {
    var at, q := StageAt(s, cfg, d.startTime), ArchiveAt(s, cfg, d.startTime);
    CompressFrame(s, w, cfg, d);
    CompressOnly(s, w, cfg, d, q, p);
    DropWipe(w.fs, at, q);
    DropWipe(p.0.fs, at, q);
    StillStaged(s, w, cfg, d, c, p);
    EncryptionIsInert(s, p.0, cfg, p.1, t, at, c);
    var e := EncryptStepSpec(s, p.0, cfg, p.1, t);
    DeliverCleans(s, e, cfg, p.1);
    CleanedAs(s, cfg, d.startTime, w.fs, e.fs, DeliverSpec(s, e, cfg, p.1));
  }

  lemma StillStaged(s: Sys, w: World, cfg: Config, d: Draft, c: Contents, p: (World, Draft, bool))
    requires Lawful(s) && Tree(w.fs) && '/' !in cfg.hostname && At(w.fs, StageAt(s, cfg, d.startTime), c)
    requires d.localFilePath == StageDir(cfg, d.startTime) && p == CompressSpec(s, w, cfg, d) && p.2
    ensures At(p.0.fs, StageAt(s, cfg, d.startTime), c)
  {
    TempNames(s, cfg, d.startTime);
    SiblingsApart(Resolve(s.cwd, cfg.tmpDir), StageBase(cfg, d.startTime), StageBase(cfg, d.startTime) + TAR_GZ);
    CompressArchive(s, w, cfg, d, c, StageAt(s, cfg, d.startTime), ArchiveAt(s, cfg, d.startTime), p);
  }

  lemma PackCleans(s: Sys, w: World, cfg: Config, d: Draft, t: Tick, c: Contents, fs: Fs)
    requires Lawful(s) && Tree(w.fs) && '/' !in cfg.hostname
    requires d.localFilePath == StageDir(cfg, d.startTime) && c.meta == MarshalMeta(LEGACY, MetaOf(cfg, d, t))
    requires Put(w.fs, StageAt(s, cfg, d.startTime) + [META], c.meta) == Staged(fs, StageAt(s, cfg, d.startTime), c)
    ensures Cleaned(s, cfg, d.startTime, w.fs, PackSpec(s, w, cfg, d, t))
  {
    WriteMetaEffect(s, w, cfg, d, t, c.meta);
    MetaKeepsTree(s, w, cfg, d, t);
    var m := WriteMetaSpec(s, w, cfg, d, t);
    if m.1 {
      StagedAt(fs, StageAt(s, cfg, d.startTime), c);
      var p := CompressSpec(s, m.0, cfg, d);
      if p.2 {
        ArchiveCleans(s, m.0, cfg, d, t, c, p);
        UnderGone(w.fs, StageAt(s, cfg, d.startTime), META, ArchiveAt(s, cfg, d.startTime), c.meta);
        PackIs(s, w, cfg, d, t, m, p);
        CleanedAs(s, cfg, d.startTime, w.fs, m.0.fs, PackSpec(s, w, cfg, d, t));
      }
    }
  }

  lemma PackIs(s: Sys, w: World, cfg: Config, d: Draft, t: Tick, m: (World, bool), p: (World, Draft, bool))
    requires m == WriteMetaSpec(s, w, cfg, d, t) && m.1 && p == CompressSpec(s, m.0, cfg, d) && p.2
    ensures PackSpec(s, w, cfg, d, t) == DeliverSpec(s, EncryptStepSpec(s, p.0, cfg, p.1, t), cfg, p.1)
  {}

  lemma DataCleans(s: Sys, w: World, cfg: Config, d: Draft, t: Tick, c: Contents, fs: Fs, a: (World, Draft, bool))
    requires Lawful(s) && Tree(w.fs) && '/' !in cfg.hostname
    requires w.fs == AddDirs(fs, StageAt(s, cfg, d.startTime)) && d.localFilePath == StageDir(cfg, d.startTime)
    requires DataOf(d) == c.(meta := "") && c.meta == MarshalMeta(LEGACY, MetaOf(cfg, SummedAll(s, d), t))
    requires a == WriteDataSpec(s, w, d) && a.2
    ensures Cleaned(s, cfg, d.startTime, w.fs, PackSpec(s, a.0, cfg, a.1, t))
  {
    WriteDataEffect(s, w, d);
    DataKeepsTree(s, w, d);
    PackCleans(s, a.0, cfg, a.1, t, c, fs);
    var p, q := StageAt(s, cfg, d.startTime), ArchiveAt(s, cfg, d.startTime);
    ThreeGone(w.fs, p, q, d, a.0.fs);
    CleanedAs(s, cfg, d.startTime, w.fs, a.0.fs, PackSpec(s, a.0, cfg, a.1, t));
  }

  lemma ThreeGone(fs: Fs, p: Path, q: Path, d: Draft, after: Fs)
    requires after == Put(Put(Put(fs, p + [DataName(KV, d.startTime)], d.kvJson),
                              p + [DataName(PQ, d.startTime)], d.pqJson), p + [DataName(ACL, d.startTime)], d.aclJson)
    ensures Without(fs, p, q) == Without(after, p, q)
  {
    var k := Put(fs, p + [DataName(KV, d.startTime)], d.kvJson);
    var u := Put(k, p + [DataName(PQ, d.startTime)], d.pqJson);
    UnderGone(fs, p, DataName(KV, d.startTime), q, d.kvJson);
    UnderGone(k, p, DataName(PQ, d.startTime), q, d.pqJson);
    UnderGone(u, p, DataName(ACL, d.startTime), q, d.aclJson);
  }

  lemma StageCleans(s: Sys, w: World, cfg: Config, d: Draft, t: Tick, c: Contents)
    requires Lawful(s) && Tree(w.fs) && '/' !in cfg.hostname
    requires t.start == d.startTime && c == ContentsOf(s, cfg, d, t)
    ensures Cleaned(s, cfg, d.startTime, AddDirs(w.fs, Resolve(s.cwd, cfg.tmpDir)), StageSpec(s, w, cfg, d, t))
  {
    var m := PreProcessSpec(s, w, cfg, d);
    PreProcessEffect(s, w, cfg, d);
    if m.2 {
      var a := WriteDataSpec(s, m.0, m.1);
      if a.2 {
        DataCleans(s, m.0, cfg, m.1, t, c, w.fs, a);
        TempNames(s, cfg, d.startTime);
        var tmp := Resolve(s.cwd, cfg.tmpDir);
        DirsStay(w.fs, tmp, StageBase(cfg, d.startTime), ArchiveAt(s, cfg, d.startTime));
        StageIs(s, w, cfg, d, t, m, a);
        CleanedAs(s, cfg, d.startTime, AddDirs(w.fs, tmp), m.0.fs, StageSpec(s, w, cfg, d, t));
      }
    }
  }

  lemma StageIs(s: Sys, w: World, cfg: Config, d: Draft, t: Tick, m: (World, Draft, bool), a: (World, Draft, bool))
    requires m == PreProcessSpec(s, w, cfg, d) && m.2 && a == WriteDataSpec(s, m.0, m.1) && a.2
    ensures StageSpec(s, w, cfg, d, t) == PackSpec(s, a.0, cfg, a.1, t)
  {}

  // The disk after a run that completes and whose two removals go through, whatever
  // else was there: what there was, with the temporary directory, and without the
  // archive or anything at or below the staging directory.
  lemma DoWorkCleans(s: Sys, w: World, cfg: Config, c: Client, t: Tick, r: (World, Client, bool))
    requires Lawful(s) && Tree(w.fs) && '/' !in cfg.hostname && !cfg.acceptance
    requires r == DoWorkSpec(s, w, cfg, c, t) && r.2 && r.0.alive && LastTwoFine(s, r.0)
    ensures r.0.fs == Without(AddDirs(w.fs, Resolve(s.cwd, cfg.tmpDir)), StageAt(s, cfg, t.start),
                              ArchiveAt(s, cfg, t.start))
    ensures ArchiveAt(s, cfg, t.start) !in r.0.fs.files && Fresh(r.0.fs, StageAt(s, cfg, t.start))
  {
    CollectMeaning(s, w, c, t.start);
    var l := CollectSpec(s, w, c, t.start);
    StageCleans(s, l.0, cfg, l.2, t, Snapshot(s, cfg, l.1, t));
  }

  // If both names were unused, the disk is the one before, up to the temporary
  // directory.
  lemma DoWorkLeavesNoTrace(s: Sys, w: World, cfg: Config, c: Client, t: Tick, r: (World, Client, bool))
    requires Lawful(s) && Tree(w.fs) && '/' !in cfg.hostname && !cfg.acceptance
    requires r == DoWorkSpec(s, w, cfg, c, t) && r.2 && r.0.alive && LastTwoFine(s, r.0)
    requires Fresh(w.fs, StageAt(s, cfg, t.start)) && Fresh(w.fs, ArchiveAt(s, cfg, t.start))
    ensures r.0.fs == AddDirs(w.fs, Resolve(s.cwd, cfg.tmpDir))
  {
    DoWorkCleans(s, w, cfg, c, t, r);
    TempNames(s, cfg, t.start);
    Unneeded(w.fs, Resolve(s.cwd, cfg.tmpDir), StageBase(cfg, t.start), StageBase(cfg, t.start) + TAR_GZ);
  }

  // ---- Every history in which nothing fails ----

  // No start time's names are in use, and the temporary directory can be made.
  ghost predicate Unused(s: Sys, cfg: Config, fs: Fs) {
    && CanMkdir(fs, Resolve(s.cwd, cfg.tmpDir))
    && forall start: int64 :: Fresh(fs, StageAt(s, cfg, start)) && Fresh(fs, ArchiveAt(s, cfg, start))
  }

  // A directory of which nothing is there can be made, and files in it.
  lemma FreshCanMkdir(fs: Fs, tmp: Path, a: string)
    requires CanMkdir(fs, tmp) && Fresh(fs, tmp + [a])
    ensures CanMkdir(fs, tmp + [a])
  {
    var p := tmp + [a];
    forall i | 0 <= i <= |p| ensures p[..i] !in fs.files {
      if i < |p| { assert p[..i] == tmp[..i]; }
    }
  }

  lemma FreshRoom(fs: Fs, p: Path)
    requires Fresh(fs, p)
    ensures Room(AddDirs(fs, p), p)
  {
    assert p == p[..|p|];
    forall n: string ensures p + [n] !in AddDirs(fs, p).dirs {
      assert p <= p + [n];
    }
  }

  lemma UnusedIsClear(s: Sys, cfg: Config, w: World, start: int64)
    requires '/' !in cfg.hostname && Unused(s, cfg, w.fs)
    ensures Clearance(s, w, cfg, start)
  {
    TempNames(s, cfg, start);
    FreshCanMkdir(w.fs, Resolve(s.cwd, cfg.tmpDir), StageBase(cfg, start));
    FreshRoom(w.fs, StageAt(s, cfg, start));
  }

  lemma StillUnused(s: Sys, cfg: Config, fs: Fs)
    requires '/' !in cfg.hostname && Unused(s, cfg, fs)
    ensures Unused(s, cfg, AddDirs(fs, Resolve(s.cwd, cfg.tmpDir)))
  {
    var tmp := Resolve(s.cwd, cfg.tmpDir);
    forall start: int64
      ensures Fresh(AddDirs(fs, tmp), StageAt(s, cfg, start)) && Fresh(AddDirs(fs, tmp), ArchiveAt(s, cfg, start))
    {
      TempNames(s, cfg, start);
      assert forall i :: 0 <= i <= |tmp| ==> |tmp[..i]| <= |tmp|;
    }
  }

  lemma CalmTick(s: Sys, cfg: Config, w: World, c: Client, t: Tick)
    requires Lawful(s) && FaultFree(s) && '/' !in cfg.hostname && !cfg.acceptance
    requires w.alive && Tree(w.fs) && Unused(s, cfg, w.fs)
    ensures var r := DoWorkSpec(s, w, cfg, c, t);
            r.2 && r.0.alive && Tree(r.0.fs) && r.0.fs == AddDirs(w.fs, Resolve(s.cwd, cfg.tmpDir))
  {
    UnusedIsClear(s, cfg, w, t.start);
    DoWorkCompletes(s, w, cfg, c, t);
    DoWorkMeaning(s, w, cfg, c, t);
    DoWorkLeavesNoTrace(s, w, cfg, c, t, DoWorkSpec(s, w, cfg, c, t));
  }

  // The disk is the first one, perhaps with the temporary directory.
  ghost predicate Spotless(s: Sys, cfg: Config, fs: Fs, w: World) {
    && w.alive && Tree(w.fs) && Unused(s, cfg, w.fs)
    && (w.fs == fs || w.fs == AddDirs(fs, Resolve(s.cwd, cfg.tmpDir)))
  }

  lemma CalmStep(s: Sys, cfg: Config, fs: Fs, x: State, e: Event)
    requires Lawful(s) && FaultFree(s) && '/' !in cfg.hostname && !cfg.acceptance && Spotless(s, cfg, fs, x.w)
    ensures Spotless(s, cfg, fs, Daemon.Step(s, cfg, x, e).w)
  {
    if e.Work? {
      CalmTick(s, cfg, x.w, x.client, e.tick);
      StillUnused(s, cfg, x.w.fs);
      Twice(fs, Resolve(s.cwd, cfg.tmpDir));
    }
  }

  lemma Twice(fs: Fs, p: Path)
    ensures AddDirs(AddDirs(fs, p), p) == AddDirs(fs, p)
  {}

  // However many ticks a daemon has had of which nothing failed, none has left a
  // staging directory or an archive on the disk.
  lemma CalmHistoryLeavesNothing(s: Sys, cfg: Config, x: State, events: seq<Event>)
    requires Lawful(s) && FaultFree(s) && '/' !in cfg.hostname && !cfg.acceptance
    requires x.w.alive && Tree(x.w.fs) && Unused(s, cfg, x.w.fs)
    ensures var fs := History(s, cfg, x, events).w.fs;
            && (fs == x.w.fs || fs == AddDirs(x.w.fs, Resolve(s.cwd, cfg.tmpDir)))
            && forall start: int64 :: Fresh(fs, StageAt(s, cfg, start)) && Fresh(fs, ArchiveAt(s, cfg, start))
  {
    forall y: State, e: Event | Spotless(s, cfg, x.w.fs, y.w) ensures Spotless(s, cfg, x.w.fs, StepOf(s, cfg)(y, e).w) {
      CalmStep(s, cfg, x.w.fs, y, e);
    }
    FoldKeeps(StepOf(s, cfg), (y: State) => Spotless(s, cfg, x.w.fs, y.w), (e: Event) => true, x, events);
  }
}
