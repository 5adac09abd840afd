/** What a run of the restore service does to Consul and to the disk. */
module RestoreFacts {
  import opened Wrappers
  import opened Paths
  import opened Metadata
  import opened World
  import opened Config
  import opened ConsulClient
  import opened Archiver
  import opened ArchiveFacts
  import opened Snapshots
  import opened RestoreService

  // ---- Load before write ----

  lemma UnTarGzFrame(s: Sys, w: World, src: string, dest: string)
    ensures Outside(w, UnTarGzSpec(s, w, src, dest).0)
  {
    var r := Read(s, w, src);
    if r.1.Some? && s.gunzip(r.1.value).Some? {
      ExtractFrame(s, r.0, Resolve(s.cwd, dest), s.untar(s.gunzip(r.1.value).value).entries);
    }
  }

  lemma ExtractSpecFrame(s: Sys, w: World, d: Draft)
    ensures Outside(w, ExtractSpec(s, w, d).0)
    ensures ExtractSpec(s, w, d).1 == d.(extractedPath := d.localPath + EXTRACTED)
  {
    UnTarGzFrame(s, Mkdir(s, w, d.localPath + EXTRACTED).0, d.localPath, d.localPath + EXTRACTED);
  }

  // Reading changes neither the disk nor anything outside.
  ghost predicate OnlyReads(w: World, r: World) { Outside(w, r) && r.fs == w.fs }

  lemma LoadMetadataFrame(s: Sys, w: World, d: Draft)
    ensures var r := LoadMetadataSpec(s, w, d); OnlyReads(w, r.0) && r.1 == d.(metadata := r.1.metadata)
  {}

  predicate SamePaths(d: Draft, r: Draft) { r.localPath == d.localPath && r.extractedPath == d.extractedPath }

  lemma LoadKVFrame(s: Sys, w: World, d: Draft, time: int)
    ensures var r := LoadKVSpec(s, w, d, time); OnlyReads(w, r.0) && SamePaths(d, r.1)
  {}

  lemma LoadPQFrame(s: Sys, w: World, d: Draft, time: int)
    ensures var r := LoadPQSpec(s, w, d, time); OnlyReads(w, r.0) && SamePaths(d, r.1)
  {}

  lemma LoadACLFrame(s: Sys, w: World, d: Draft, time: int)
    ensures var r := LoadACLSpec(s, w, d, time); OnlyReads(w, r.0) && SamePaths(d, r.1)
  {}

  lemma LoadFamiliesFrame(s: Sys, w: World, d: Draft, time: int)
    ensures var r := LoadFamiliesSpec(s, w, d, time); OnlyReads(w, r.0) && SamePaths(d, r.1)
  {
    LoadKVFrame(s, w, d, time);
    var k := LoadKVSpec(s, w, d, time);
    LoadPQFrame(s, k.0, k.1, time);
    var p := LoadPQSpec(s, k.0, k.1, time);
    LoadACLFrame(s, p.0, p.1, time);
  }

  lemma LoadBackupDataFrame(s: Sys, w: World, d: Draft)
    ensures var r := LoadBackupDataSpec(s, w, d); OnlyReads(w, r.0) && SamePaths(d, r.1)
  {
    if StartTimeOf(d.metadata).Some? {
      LoadFamiliesFrame(s, w, d, StartTimeOf(d.metadata).value);
    }
  }

  lemma InspectFrame(s: Sys, w: World, d: Draft)
    ensures var r := InspectSpec(s, w, d);
            OnlyReads(w, r.0) && SamePaths(d, r.1)
  {
    LoadMetadataFrame(s, w, d);
    var m := LoadMetadataSpec(s, w, d);
    LoadBackupDataFrame(s, m.0, m.1);
  }

  lemma LoadFrame(s: Sys, w: World, d: Draft)
    ensures var r := LoadSpec(s, w, d);
            && Outside(w, r.0) && r.0.fs == ExtractSpec(s, w, d).0.fs
            && r.1.localPath == d.localPath && r.1.extractedPath == d.localPath + EXTRACTED
  {
    ExtractSpecFrame(s, w, d);
    var x := ExtractSpec(s, w, d);
    InspectFrame(s, x.0, x.1);
  }

  // ---- Replaying ----

  // Some prefix of each loaded list has been applied, and nothing else.
  ghost predicate Replayed(before: Store, after: Store, d: Draft, a: nat, b: nat, c: nat) {
    && a <= d.kvData.Len() && b <= d.pqData.Len() && c <= d.aclData.Len()
    && after == Store(Overlay(before.kv, d.kvData.Elems()[..a]), before.pqs + d.pqData.Elems()[..b],
                      before.acls + d.aclData.Elems()[..c])
  }

  function Cut(n: nat, all: nat): nat { if n < all then 1 else 0 }

  // How far each family gets: to the first of its calls that fails.
  function KeysDone(s: Sys, w: World, d: Draft): nat { Streak(s, w, d.kvData.Len()) }

  function PQsDone(s: Sys, w: World, d: Draft): nat {
    Streak(s, ReplayKeys(s, w, d.kvData.Elems()).0, d.pqData.Len())
  }

  function ACLsDone(s: Sys, w: World, d: Draft): nat {
    Streak(s, ReplayPQs(s, ReplayKeys(s, w, d.kvData.Elems()).0, d.pqData.Elems()).0, d.aclData.Len())
  }

  // All three families are attempted, each applies exactly the calls before its
  // first failure, and the error count is the number of families cut short.
  lemma RestoreToConsulMeaning(s: Sys, w: World, d: Draft)
    ensures var r := RestoreToConsulSpec(s, w, d);
            && Replayed(w.consul, r.0.consul, d, KeysDone(s, w, d), PQsDone(s, w, d), ACLsDone(s, w, d))
            && r.1 == Cut(KeysDone(s, w, d), d.kvData.Len()) + Cut(PQsDone(s, w, d), d.pqData.Len())
                      + Cut(ACLsDone(s, w, d), d.aclData.Len())
            && r.0.fs == w.fs && r.0.objects == w.objects
  {
    var kvs, pqs, acls := d.kvData.Elems(), d.pqData.Elems(), d.aclData.Elems();
    ReplayKeysPrefix(s, w, kvs);
    ReplayKeysFrame(s, w, kvs);
    var k := ReplayKeys(s, w, kvs).0;
    ReplayPQsPrefix(s, k, pqs);
    ReplayPQsFrame(s, k, pqs);
    var p := ReplayPQs(s, k, pqs).0;
    ReplayACLsPrefix(s, p, acls);
    ReplayACLsFrame(s, p, acls);
  }

  lemma CleanupFrame(s: Sys, w: World, d: Draft)
    ensures Outside(w, CleanupSpec(s, w, d))
  {}

  predicate BeforeReplay(o: Outcome) { o.Stopped? && !o.at.Replaying? }

  // What a run has done to Consul: nothing at all if it ended before the replay,
  // and else some prefix of each list it loaded, in full exactly on completion. The
  // errors it reports are the number of lists not applied in full.
  ghost predicate Written(before: Store, after: Store, d: Draft, o: Outcome) {
    && (BeforeReplay(o) ==> after == before)
    && (!BeforeReplay(o) ==>
        exists a: nat, b: nat, c: nat :: Replayed(before, after, d, a, b, c) &&
          (o == Completed <==> a == d.kvData.Len() && b == d.pqData.Len() && c == d.aclData.Len()) &&
          (o != Completed ==>
            o.at.errors == Cut(a, d.kvData.Len()) + Cut(b, d.pqData.Len()) + Cut(c, d.aclData.Len())))
  }

  lemma FinishMeaning(s: Sys, w: World, d: Draft)
    ensures var r := FinishSpec(s, w, d);
            r.0.objects == w.objects && !BeforeReplay(r.1) && Written(w.consul, r.0.consul, d, r.1)
  {
    RestoreToConsulMeaning(s, w, d);
    CleanupFrame(s, RestoreToConsulSpec(s, w, d).0, d);
  }

  lemma UnpackMeaning(s: Sys, w: World, d: Draft)
    ensures var r := UnpackSpec(s, w, d);
            r.0.objects == w.objects && Written(w.consul, r.0.consul, LoadSpec(s, w, d).1, r.1)
  {
    LoadFrame(s, w, d);
    var l := LoadSpec(s, w, d);
    CleanupFrame(s, l.0, l.1);
    if l.2 == Completed {
      FinishMeaning(s, l.0, l.1);
    }
  }

  lemma DownloadFrame(s: Sys, w: World, cfg: Config, path: string)
    ensures Outside(w, DownloadSpec(s, w, cfg, path).0)
  {}

  // Under any schedule.
  lemma RunRestoreMeaning(s: Sys, w: World, cfg: Config, path: string)
    ensures var r := RunRestoreSpec(s, w, cfg, path); var got := DownloadSpec(s, w, cfg, path);
            && r.0.objects == w.objects
            && (got.1.None? ==> BeforeReplay(r.1) && r.0.consul == w.consul)
            && (got.1.Some? ==> Written(w.consul, r.0.consul, LoadSpec(s, got.0, got.1.value).1, r.1))
  {
    DownloadFrame(s, w, cfg, path);
    var got := DownloadSpec(s, w, cfg, path);
    if got.1.Some? {
      UnpackMeaning(s, got.0, got.1.value);
    }
  }

  // A dead process writes nothing.
  lemma DeadReplays(s: Sys, w: World, d: Draft)
    requires !w.alive
    ensures RestoreToConsulSpec(s, w, d).0 == w
  {}

  lemma DeadFinishes(s: Sys, w: World, d: Draft)
    requires !w.alive
    ensures FinishSpec(s, w, d).0.consul == w.consul
  {
    DeadReplays(s, w, d);
    CleanupFrame(s, w, d);
  }

  // The point up to which nothing has been written: the end of loading.
  ghost predicate DiedLoading(s: Sys, w: World, cfg: Config, path: string) {
    var got := DownloadSpec(s, w, cfg, path);
    got.1.Some? && !LoadSpec(s, got.0, got.1.value).0.alive
  }

  lemma DeadUnpacks(s: Sys, w: World, d: Draft)
    requires !LoadSpec(s, w, d).0.alive
    ensures UnpackSpec(s, w, d).0.consul == w.consul
  {
    LoadFrame(s, w, d);
    var l := LoadSpec(s, w, d);
    CleanupFrame(s, l.0, l.1);
    DeadFinishes(s, l.0, l.1);
  }

  lemma DeathLeavesConsul(s: Sys, w: World, cfg: Config, path: string)
    requires DiedLoading(s, w, cfg, path)
    ensures RunRestoreSpec(s, w, cfg, path).0.consul == w.consul
  {
    DownloadFrame(s, w, cfg, path);
    var got := DownloadSpec(s, w, cfg, path);
    DeadUnpacks(s, got.0, got.1.value);
  }

  // A run that stops before its replay leaves Consul alone, and so does one that
  // dies while downloading, extracting, inspecting or reading any data file,
  // whatever the model then makes of its end.
  lemma LoadBeforeWrite(s: Sys, w: World, cfg: Config, path: string)
    ensures var r := RunRestoreSpec(s, w, cfg, path);
            BeforeReplay(r.1) || DiedLoading(s, w, cfg, path) ==> r.0.consul == w.consul
  {
    if DiedLoading(s, w, cfg, path) {
      DeathLeavesConsul(s, w, cfg, path);
    } else {
      RunRestoreMeaning(s, w, cfg, path);
    }
  }

  // ---- Cleaning up ----

  lemma RemoveThenWipe(s: Sys, w: World, p: Path, q: Path)
    ensures var r := WipeAt(s, RemoveAt(s, w, p).0, q).0;
            r.alive && LastTwoFine(s, r) ==> p !in r.fs.files && Fresh(r.fs, q)
  {
    var r := WipeAt(s, RemoveAt(s, w, p).0, q).0;
    if r.alive {
      assert r.calls - 2 <= w.calls < r.calls && r.calls - 2 <= w.calls + 1 < r.calls;
    }
  }

  lemma CleanupRemoves(s: Sys, w: World, d: Draft, p: Path, q: Path)
    requires d.localPath != "" && d.extractedPath != ""
    requires p == Resolve(s.cwd, d.localPath) && q == Resolve(s.cwd, d.extractedPath)
    ensures CleanupSpec(s, w, d) == WipeAt(s, RemoveAt(s, w, p).0, q).0
  {}

  // The archive goes first: killed between the two, a process leaves the tree.
  lemma CleanupOrder(s: Sys, w: World, d: Draft, p: Path, q: Path)
    requires d.localPath != "" && d.extractedPath != "" && w.alive && CanRemove(w.fs, p)
    requires p == Resolve(s.cwd, d.localPath) && q == Resolve(s.cwd, d.extractedPath)
    requires s.fault(w.calls) == Fine && s.fault(w.calls + 1) == Crash
    ensures CleanupSpec(s, w, d).fs == Drop(w.fs, p) && !CleanupSpec(s, w, d).alive
  {}

  // The deferred cleanup of a run that got past the download, whatever else
  // failed: if both removals go through, no trace is left.
  ghost predicate Cleared(s: Sys, d: Draft, r: World) {
    r.alive && LastTwoFine(s, r) ==>
      Resolve(s.cwd, d.localPath) !in r.fs.files && Fresh(r.fs, Resolve(s.cwd, d.localPath + EXTRACTED))
  }

  lemma CleanupClears(s: Sys, w: World, d: Draft)
    requires d.localPath != "" && d.extractedPath == d.localPath + EXTRACTED
    ensures Cleared(s, d, CleanupSpec(s, w, d))
  {
    var p, q := Resolve(s.cwd, d.localPath), Resolve(s.cwd, d.extractedPath);
    CleanupRemoves(s, w, d, p, q);
    RemoveThenWipe(s, w, p, q);
  }

  lemma FinishClears(s: Sys, w: World, d: Draft)
    requires d.localPath != "" && d.extractedPath == d.localPath + EXTRACTED
    ensures Cleared(s, d, FinishSpec(s, w, d).0)
  {
    CleanupClears(s, RestoreToConsulSpec(s, w, d).0, d);
  }

  lemma ClearedSame(s: Sys, d: Draft, d': Draft, r: World)
    requires d.localPath == d'.localPath && Cleared(s, d', r)
    ensures Cleared(s, d, r)
  {}

  lemma UnpackClearsFrom(s: Sys, w: World, d: Draft, l: (World, Draft, Outcome))
    requires l == LoadSpec(s, w, d)
    requires Cleared(s, d, CleanupSpec(s, l.0, l.1)) && Cleared(s, d, FinishSpec(s, l.0, l.1).0)
    ensures Cleared(s, d, UnpackSpec(s, w, d).0)
  {}

  lemma UnpackClears(s: Sys, w: World, d: Draft)
    requires d.localPath != ""
    ensures Cleared(s, d, UnpackSpec(s, w, d).0)
  {
    LoadFrame(s, w, d);
    var l := LoadSpec(s, w, d);
    CleanupClears(s, l.0, l.1);
    ClearedSame(s, d, l.1, CleanupSpec(s, l.0, l.1));
    FinishClears(s, l.0, l.1);
    ClearedSame(s, d, l.1, FinishSpec(s, l.0, l.1).0);
    UnpackClearsFrom(s, w, d, l);
  }

  lemma DownloadNames(s: Sys, w: World, cfg: Config, path: string)
    ensures var d := DownloadSpec(s, w, cfg, path).1; d.Some? ==> d.value.localPath != ""
  {
    BaseNotEmpty(path);
    JoinNotEmpty(cfg.tmpDir, Base(path));
    JoinNotEmpty(cfg.tmpDir, ARCHIVE);
  }

  // The extracted path is set after the cleanup was deferred, and is removed.
  lemma RunRestoreClears(s: Sys, w: World, cfg: Config, path: string)
    ensures var got := DownloadSpec(s, w, cfg, path);
            got.1.Some? ==> Cleared(s, got.1.value, RunRestoreSpec(s, w, cfg, path).0)
  {
    DownloadNames(s, w, cfg, path);
    var got := DownloadSpec(s, w, cfg, path);
    if got.1.Some? {
      UnpackClears(s, got.0, got.1.value);
    }
  }
}
