/**
 What the legacy pair does together: every acknowledged backup can be restored,
 and an acceptance run restores its own data whatever earlier runs left behind.
 */
module LegacyRoundTrip {
  import opened Wrappers
  import opened Decimal
  import opened Paths
  import opened Text
  import opened Names
  import opened Utf8
  import opened Records
  import opened Metadata
  import opened World
  import opened Config
  import opened ConsulClient
  import opened Snapshots
  import opened LegacyBackupFacts
  import opened LegacyTrip
  import LegacyBackup
  import LegacyRestore
  import LegacyRetry
  import Daemon

  // The keys a restore of a snapshot brings back.
  function Kept(cfg: Config, c: Client): Slice<KVPair> {
    if Sanitize(cfg.version) == LegacyRestore.V1 then Nil else CleanKVs(c.keys)
  }

  lemma SnapshotReads(s: Sys, cfg: Config, c: Client, t: LegacyBackup.Tick, m: Meta)
    requires m == CleanMeta(MetaFor(s, cfg, t, Snapshot(s, cfg, c, t)))
    ensures Reads(Snapshot(s, cfg, c, t), CleanKVs(c.keys), CleanPQs(c.pqs), CleanACLs(c.acls), m)
    ensures Wanted(m, CleanKVs(c.keys)) == Kept(cfg, c)
  {
    KVListTrip(c.keys);
    PQListTrip(c.pqs);
    ACLListTrip(c.acls);
    LegacyMetaTrip(MetaFor(s, cfg, t, Snapshot(s, cfg, c, t)));
  }

  // The checksums a reader finds are those of the files beside the metadata.
  lemma SnapshotChecksums(s: Sys, cfg: Config, c: Client, t: LegacyBackup.Tick, k: Contents)
    requires k == Snapshot(s, cfg, c, t) && forall b: string :: Valid(s.sha256(b))
    ensures var m := UnmarshalLegacyMeta(k.meta);
            m.Some? && m.value.kvSum == s.sha256(k.kv) && m.value.pqSum == s.sha256(k.pq)
              && m.value.aclSum == s.sha256(k.acl)
  {
    LegacyMetaTrip(MetaFor(s, cfg, t, k));
    SanitizeExactIff(s.sha256(k.kv));
    SanitizeExactIff(s.sha256(k.pq));
    SanitizeExactIff(s.sha256(k.acl));
  }

  // ---- From a bucket ----

  // The directory under which a restore puts the archive it fetches.
  function FetchDir(s: Sys, cfg: Config, start: int, cfg': Config): string {
    cfg'.tmpDir + "/" + (cfg.objectPrefix + Dated(s.date(start)))
  }

  lemma FetchPath(s: Sys, cfg: Config, start: int, cfg': Config)
    requires '/' !in cfg.hostname
    ensures Spelled(cfg', KeyOf(s, cfg, start), FetchDir(s, cfg, start, cfg'), LegacyBackup.StageBase(cfg, start))
  {
    TempNames(s, cfg, start);
    ObjectKeyShape(cfg.objectPrefix, s.date(start), LegacyBackup.StageBase(cfg, start) + TAR_GZ);
    Reassociate(cfg'.tmpDir + "/", cfg.objectPrefix + Dated(s.date(start)), "/",
      LegacyBackup.StageBase(cfg, start) + TAR_GZ);
  }

  lemma Reassociate(a: string, b: string, c: string, d: string)
    ensures a + (b + c + d) == a + b + c + d
  {}

  // A restoring machine, with a directory and settings of its own: it still has
  // the run's object, room to unpack it, and no ".gz" in the path to that place.
  // z: a process there whose calls do not fail.
  ghost predicate Restoring(s: Sys, cfg: Config, start: int, z: Sys, w: World, cfg': Config, dir: string,
                            base: string) {
    && Lawful(s) && s.layout.Nested? && '/' !in cfg.hostname
    && dir == FetchDir(s, cfg, start, cfg') && base == LegacyBackup.StageBase(cfg, start)
    && z == Calm(s, z.cwd) && Ready(z, w, cfg', KeyOf(s, cfg, start), dir, base) && !Contains(dir + "/" + base, GZ)
  }

  lemma RestoreSnapshot(s: Sys, cfg: Config, c: Client, t: LegacyBackup.Tick, z: Sys, w: World, cfg': Config,
                        dir: string,
                        base: string, data: string)
    requires Restoring(s, cfg, t.start, z, w, cfg', dir, base)
    requires data == w.objects[(BucketOf(cfg'), KeyOf(s, cfg, t.start))]
    requires Good(s, cfg, t.start, Snapshot(s, cfg, c, t), data)
    ensures Restored(w, LegacyRestore.DoWorkSpec(z, w, cfg', KeyOf(s, cfg, t.start)), Kept(cfg, c))
  {
    TempNames(s, cfg, t.start);
    FetchPath(s, cfg, t.start, cfg');
    CalmArchive(s, z, data, [base], Snapshot(s, cfg, c, t), false);
    var m := CleanMeta(MetaFor(s, cfg, t, Snapshot(s, cfg, c, t)));
    SnapshotReads(s, cfg, c, t, m);
    RestoreArchive(z, w, cfg', KeyOf(s, cfg, t.start), dir, base, data, Snapshot(s, cfg, c, t),
                   CleanKVs(c.keys), CleanPQs(c.pqs), CleanACLs(c.acls), m);
  }

  // The round trip. A run that completes, under any schedule, has put into every
  // bucket what restores, over any later store and on any machine, exactly the
  // keys its client held; prepared queries and ACLs are left alone.
  lemma LegacyRoundTrip(s: Sys, start: World, cfg: Config, c: Client, t: LegacyBackup.Tick, r: (World, Client, bool),
                        z: Sys, w: World, cfg': Config, dir: string, base: string)
    requires Restoring(s, cfg, t.start, z, w, cfg', dir, base) && Tree(start.fs) && !cfg.acceptance
    requires r == LegacyBackup.DoWorkSpec(s, start, cfg, c, t) && r.2
    requires var k := (BucketOf(cfg'), KeyOf(s, cfg, t.start));
             IsBucket(cfg, k.0) && (k in r.0.objects ==> k in w.objects && w.objects[k] == r.0.objects[k])
    ensures Restored(w, LegacyRestore.DoWorkSpec(z, w, cfg', KeyOf(s, cfg, t.start)), Kept(cfg, r.1))
  {
    DoWorkMeaning(s, start, cfg, c, t);
    var k := (BucketOf(cfg'), KeyOf(s, cfg, t.start));
    RestoreSnapshot(s, cfg, r.1, t, z, w, cfg', dir, base, w.objects[k]);
  }

  // If Consul's listing of the keys went through and is complete, the restore makes
  // the keys of any store with none of its own those that were backed up.
  lemma LegacyCopiesKeys(s: Sys, start: World, cfg: Config, c: Client, t: LegacyBackup.Tick, r: (World, Client, bool),
                         z: Sys, w: World, cfg': Config, dir: string, base: string)
    requires Restoring(s, cfg, t.start, z, w, cfg', dir, base) && Tree(start.fs) && !cfg.acceptance
    requires r == LegacyBackup.DoWorkSpec(s, start, cfg, c, t) && r.2
    requires var k := (BucketOf(cfg'), KeyOf(s, cfg, t.start));
             IsBucket(cfg, k.0) && (k in r.0.objects ==> k in w.objects && w.objects[k] == r.0.objects[k])
    requires var l := s.keys(start.consul, start.calls);
             Up(s, start) && ValidKVs(l) && Tells(l.Elems(), start.consul.kv)
    requires Sanitize(cfg.version) != LegacyRestore.V1
    ensures LegacyRestore.DoWorkSpec(z, w, cfg', KeyOf(s, cfg, t.start)).0.consul.kv == start.consul.kv <==>
            w.consul.kv.Keys <= start.consul.kv.Keys
  {
    var l := s.keys(start.consul, start.calls);
    LegacyRoundTrip(s, start, cfg, c, t, r, z, w, cfg', dir, base);
    FreshKeys(s, start, cfg, c, t);
    CleanKVsExactIff(l);
    OverlayCopiesIff(w.consul.kv, l.Elems(), start.consul.kv);
  }

  lemma FreshKeys(s: Sys, w: World, cfg: Config, c: Client, t: LegacyBackup.Tick)
    requires Up(s, w)
    ensures LegacyBackup.DoWorkSpec(s, w, cfg, c, t).1.keys == s.keys(w.consul, w.calls)
  {}

  // A restore that had failed puts, died or was torn half-way (f: its schedule)
  // can be repeated in a new process, and then brings back the whole snapshot.
  lemma RetryRestores(s: Sys, cfg: Config, c: Client, t: LegacyBackup.Tick, f: Sys, z: Sys, w: World, cfg': Config,
                      dir: string, base: string, data: string, r: World, key: string)
    requires Restoring(s, cfg, t.start, z, w, cfg', dir, base) && Streaming(z) && key == KeyOf(s, cfg, t.start)
    requires data == w.objects[(BucketOf(cfg'), key)] && Good(s, cfg, t.start, Snapshot(s, cfg, c, t), data)
    requires f == z.(fault := f.fault) && r == LegacyRestore.DoWorkSpec(f, w, cfg', key).0
    ensures Restored(r, LegacyRestore.DoWorkSpec(z, r.(alive := true), cfg', key), Kept(cfg, c))
  {
    TempNames(s, cfg, t.start);
    FetchPath(s, cfg, t.start, cfg');
    CalmArchive(s, z, data, [base], Snapshot(s, cfg, c, t), false);
    LegacyRetry.ReadyAgain(f, z, w, cfg', key, dir, base, data, Snapshot(s, cfg, c, t), r);
    RestoreSnapshot(s, cfg, c, t, z, r.(alive := true), cfg', dir, base, data);
  }

  // A configured bucket the restore takes from still has what the daemon put there.
  predicate StillHas(s: Sys, cfg: Config, x: Daemon.State, start: int64, w: World, cfg': Config) {
    var k := (BucketOf(cfg'), KeyOf(s, cfg, start));
    IsBucket(cfg, k.0) && (k in x.w.objects ==> k in w.objects && w.objects[k] == x.w.objects[k])
  }

  // The restore brings back the keys of a run of this history that started then,
  // the latest its process had listed.
  ghost predicate BringsBack(s: Sys, cfg: Config, x: Daemon.State, start: int64, z: Sys, w: World, cfg': Config) {
    exists i :: 0 <= i < |x.runs| && x.runs[i].tick.start == start &&
      Daemon.Caches(x.runs[i].client, x.runs[i].heard) &&
      Restored(w, LegacyRestore.DoWorkSpec(z, w, cfg', KeyOf(s, cfg, start)), Kept(cfg, x.runs[i].client))
  }

  // Whatever acknowledgement a daemon has left, in any reachable state, it can be
  // restored.
  lemma AcknowledgedIsRestorable(s: Sys, cfg: Config, x: Daemon.State, start: int64, z: Sys, w: World, cfg': Config,
                                 dir: string, base: string)
    requires Restoring(s, cfg, start, z, w, cfg', dir, base) && !cfg.acceptance
    requires Daemon.Reachable(s, cfg, x) && Daemon.Acknowledged(x.w, start) && StillHas(s, cfg, x, start, w, cfg')
    ensures BringsBack(s, cfg, x, start, z, w, cfg')
  {
    var k := (BucketOf(cfg'), KeyOf(s, cfg, start));
    Daemon.DaemonIsSafe(s, cfg, x);
    assert Daemon.Holds(s, cfg, x.w, x.runs, k.0, start);
    var i :| 0 <= i < |x.runs| && x.runs[i].tick.start == start && Daemon.Made(s, cfg, x.runs[i], x.w.objects[k]);
    RestoreSnapshot(s, cfg, x.runs[i].client, x.runs[i].tick, z, w, cfg', dir, base, w.objects[k]);
  }

  // ---- From the disk of an acceptance run ----

  lemma AcceptanceInPlace(s: Sys, fs: Fs, cfg: Config, start: int, c: Contents, w: World)
    requires Lawful(s) && s.layout.Nested? && '/' !in cfg.hostname && cfg.acceptance && w.alive && w.fs == fs
    requires Tree(fs) && OnDisk(s, cfg, start, c, fs)
    ensures InPlace(Calm(s, s.cwd), w, Resolve(s.cwd, cfg.tmpDir), ACCEPTANCE, c)
  {
    TempNames(s, cfg, start);
    CalmLaws(s, s.cwd);
  }

  lemma RestoreHere(s: Sys, w: World, cfg: Config, key: string, path: string, base: string, c: Contents,
                    kvs: Slice<KVPair>, pqs: Slice<PreparedQuery>, acls: Slice<ACLEntry>, m: Meta)
    requires InPlace(Calm(s, s.cwd), w, Resolve(s.cwd, cfg.tmpDir), base, c) && base == ACCEPTANCE && cfg.acceptance
    requires cfg.tmpDir != ""
    requires '/' !in cfg.hostname && path == cfg.tmpDir + "/" + base && !Contains(path, GZ)
    requires Reads(c, kvs, pqs, acls, m)
    ensures Restored(w, LegacyRestore.DoWorkSpec(Calm(s, s.cwd), w, cfg, key), Wanted(m, kvs))
  {
    TempNames(s, cfg, 0);
    AcceptanceLocates(Calm(s, s.cwd), w, cfg, key, path);
    var d := LegacyRestore.NewDraft(key).(localFilePath := path + TAR_GZ);
    RestoreInPlace(Calm(s, s.cwd), w, cfg, key, path, base, d, c, kvs, pqs, acls, m,
      LegacyRestore.LoadSpec(Calm(s, s.cwd), w, cfg, key));
  }

  // Acceptance runs share one staging directory that nothing clears. Yet after a
  // run that completes, over whatever earlier runs have left, a restore loads
  // exactly that run's data.
  lemma AcceptanceRestoresLatest(s: Sys, start: World, cfg: Config, c: Client, t: LegacyBackup.Tick,
                                 r: (World, Client, bool),
                                 w: World, key: string, path: string)
    requires Lawful(s) && s.layout.Nested? && '/' !in cfg.hostname && cfg.acceptance && cfg.tmpDir != ""
    requires path == cfg.tmpDir + "/" + ACCEPTANCE && !Contains(path, GZ)
    requires Tree(start.fs) && r == LegacyBackup.DoWorkSpec(s, start, cfg, c, t) && r.2
    requires w.alive && w.fs == r.0.fs
    ensures Restored(w, LegacyRestore.DoWorkSpec(Calm(s, s.cwd), w, cfg, key), Kept(cfg, r.1))
  {
    DoWorkMeaning(s, start, cfg, c, t);
    var k := Snapshot(s, cfg, r.1, t);
    AcceptanceInPlace(s, r.0.fs, cfg, t.start, k, w);
    var m := CleanMeta(MetaFor(s, cfg, t, k));
    SnapshotReads(s, cfg, r.1, t, m);
    RestoreHere(s, w, cfg, key, path, ACCEPTANCE, k, CleanKVs(r.1.keys), CleanPQs(r.1.pqs), CleanACLs(r.1.acls), m);
  }
}
