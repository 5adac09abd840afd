/** What a legacy backup leaves on disk, in the buckets and in Consul. */
module LegacyBackupFacts {
  import opened Wrappers
  import opened Decimal
  import opened Paths
  import opened Names
  import opened Records
  import opened Metadata
  import opened World
  import opened Config
  import opened ConsulClient
  import opened Archiver
  import opened Trees
  import opened Snapshots
  import opened LegacyBackup
  import Crypt
  import BackupFacts

  // Metadata that records the checksums of the three data files.
  function MetaFor(s: Sys, cfg: Config, t: Tick, c: Contents): Meta {
    Meta(s.sha256(c.acl), cfg.version, t.end, s.sha256(c.kv), t.node, s.sha256(c.pq), t.start)
  }

  function DataOf(d: Draft): Contents { Contents(d.startTime, d.kvJson, d.pqJson, d.aclJson, "") }

  function ContentsOf(s: Sys, cfg: Config, d: Draft, t: Tick): Contents {
    DataOf(d).(meta := MarshalMeta(LEGACY, MetaFor(s, cfg, t, DataOf(d))))
  }

  function StageAt(s: Sys, cfg: Config, start: int): Path { Resolve(s.cwd, StageDir(cfg, start)) }

  function ArchiveAt(s: Sys, cfg: Config, start: int): Path { Resolve(s.cwd, ArchivePath(cfg, start)) }

  // ---- Staging ----

  // The checksum taken from disk is that of the text written.
  lemma WriteFamilyEffect(s: Sys, w: World, d: Draft, f: Family)
    ensures var p := Resolve(s.cwd, d.localFilePath); var r := WriteFamilySpec(s, w, d, f);
            && Outside(w, r.0)
            && (r.2 ==> r.0.alive && r.0.fs == Put(w.fs, p + [DataName(f, d.startTime)], d.Json(f))
                        && r.1 == d.Summed(f, s.sha256(d.Json(f))))
            && (Smooth(s, w) && Room(w.fs, p) ==> r.2 && Smooth(s, r.0))
  {
    DataNameSimple(f, d.startTime);
    WriteEffect(s, w, d.localFilePath, DataName(f, d.startTime), d.Json(f));
    ResolveJoin(s.cwd, d.localFilePath, DataName(f, d.startTime));
  }

  function SummedAll(s: Sys, d: Draft): Draft {
    d.(kvSum := s.sha256(d.kvJson), pqSum := s.sha256(d.pqJson), aclSum := s.sha256(d.aclJson))
  }

  lemma WriteDataEffect(s: Sys, w: World, d: Draft)
    ensures var p := Resolve(s.cwd, d.localFilePath); var r := WriteDataSpec(s, w, d);
            && Outside(w, r.0)
            && (r.2 ==>
                && r.0.alive && r.1 == SummedAll(s, d)
                && r.0.fs == Put(Put(Put(w.fs, p + [DataName(KV, d.startTime)], d.kvJson),
                  p + [DataName(PQ, d.startTime)], d.pqJson), p + [DataName(ACL, d.startTime)], d.aclJson))
            && (Smooth(s, w) && Room(w.fs, p) ==> r.2 && Smooth(s, r.0))
  {
    WriteFamilyEffect(s, w, d, KV);
    var k := WriteFamilySpec(s, w, d, KV);
    WriteFamilyEffect(s, k.0, k.1, PQ);
    var p := WriteFamilySpec(s, k.0, k.1, PQ);
    WriteFamilyEffect(s, p.0, p.1, ACL);
  }

  lemma WriteMetaEffect(s: Sys, w: World, cfg: Config, d: Draft, t: Tick, text: string)
    requires text == MarshalMeta(LEGACY, MetaOf(cfg, d, t))
    ensures var p := Resolve(s.cwd, d.localFilePath); var r := WriteMetaSpec(s, w, cfg, d, t);
            && Outside(w, r.0)
            && (r.1 ==> r.0.alive && r.0.fs == Put(w.fs, p + [META], text))
            && (Smooth(s, w) && Room(w.fs, p) ==> r.1 && Smooth(s, r.0))
  {
    DataNameSimple(KV, d.startTime);
    WriteEffect(s, w, d.localFilePath, META, text);
  }

  lemma FamilyKeepsTree(s: Sys, w: World, d: Draft, f: Family)
    requires Tree(w.fs)
    ensures Tree(WriteFamilySpec(s, w, d, f).0.fs)
  {
    WriteKeepsTree(s, w, Resolve(s.cwd, Join(d.localFilePath, DataName(f, d.startTime))), d.Json(f));
  }

  lemma DataKeepsTree(s: Sys, w: World, d: Draft)
    requires Tree(w.fs)
    ensures Tree(WriteDataSpec(s, w, d).0.fs)
  {
    FamilyKeepsTree(s, w, d, KV);
    var k := WriteFamilySpec(s, w, d, KV);
    FamilyKeepsTree(s, k.0, k.1, PQ);
    var p := WriteFamilySpec(s, k.0, k.1, PQ);
    FamilyKeepsTree(s, p.0, p.1, ACL);
  }

  lemma MetaKeepsTree(s: Sys, w: World, cfg: Config, d: Draft, t: Tick)
    requires Tree(w.fs)
    ensures Tree(WriteMetaSpec(s, w, cfg, d, t).0.fs)
  {
    WriteKeepsTree(s, w, Resolve(s.cwd, Join(d.localFilePath, META)), MarshalMeta(LEGACY, MetaOf(cfg, d, t)));
  }

  // ---- Archiving ----

  lemma TempNames(s: Sys, cfg: Config, start: int)
    requires '/' !in cfg.hostname
    ensures var tmp := Resolve(s.cwd, cfg.tmpDir); var base := StageBase(cfg, start);
            && Simple(base) && Simple(base + TAR_GZ) && base != base + TAR_GZ
            && StageAt(s, cfg, start) == tmp + [base] && ArchiveAt(s, cfg, start) == tmp + [base + TAR_GZ]
            && PrefixOf(s.layout, StageDir(cfg, start)) == (if s.layout.Flat? then [] else [base])
            && Base(ArchivePath(cfg, start)) == base + TAR_GZ
  {
    var base := StageBase(cfg, start);
    StageNameSimple(cfg.hostname, start);
    ResolveJoin(s.cwd, cfg.tmpDir, base);
    ResolveJoin(s.cwd, cfg.tmpDir, base + TAR_GZ);
    BaseJoin(cfg.tmpDir, base);
    BaseJoin(cfg.tmpDir, base + TAR_GZ);
    assert |base + TAR_GZ| == |base| + 7;
  }

  lemma CompressFrame(s: Sys, w: World, cfg: Config, d: Draft)
    requires Tree(w.fs)
    ensures var r := CompressSpec(s, w, cfg, d);
            && Outside(w, r.0) && Tree(r.0.fs) && (r.2 ==> r.0.alive)
            && r.1 == d.(fullFilename := ArchivePath(cfg, d.startTime))
  {
    var path := ArchivePath(cfg, d.startTime);
    var m := Remove(s, w, path).0;
    RemoveKeepsTree(s, w, Resolve(s.cwd, path));
    TarGzKeepsTree(s, m, path, d.localFilePath);
    TarGzEffect(s, m, path, d.localFilePath);
  }

  // The archive that compression leaves beside the staging directory.
  lemma CompressArchive(s: Sys, w: World, cfg: Config, d: Draft, c: Contents, p: Path, q: Path, r: (World, Draft, bool))
    requires Lawful(s) && Tree(w.fs) && At(w.fs, p, c) && !(p <= q) && forall n: string :: p + [n] != q
    requires p == Resolve(s.cwd, d.localFilePath) && q == ArchiveAt(s, cfg, d.startTime)
    requires r == CompressSpec(s, w, cfg, d) && r.2
    ensures q in r.0.fs.files && At(r.0.fs, p, c)
    ensures IsArchive(s, r.0.fs.files[q], PrefixOf(s.layout, d.localFilePath), c, false)
    ensures r.0.fs.files[q] == Pack(s, r.0.fs, d.localFilePath)
  {
    var path := ArchivePath(cfg, d.startTime);
    var m := RemoveAt(s, w, q).0;
    RemoveKeepsTree(s, w, q);
    AtStays(w.fs, p, c, q, "");
    TarGzArchive(s, m, path, d.localFilePath, c, false);
    AtStays(m.fs, p, c, q, r.0.fs.files[q]);
  }

  // ---- Uploading and acknowledging ----

  predicate IsBucket(cfg: Config, b: Bucket) {
    |b.name| > 1 && b.name == (match b.provider case S3 => cfg.s3Bucket case GCS => cfg.gcsBucket)
  }

  function KeyOf(s: Sys, cfg: Config, start: int): string { RemotePath(s, cfg, start, ArchivePath(cfg, start)) }

  // The object's name, spelled out.
  lemma KeyIs(s: Sys, cfg: Config, start: int)
    requires '/' !in cfg.hostname && !cfg.acceptance
    ensures KeyOf(s, cfg, start) == BackupFacts.Spelled(cfg.objectPrefix, s.date(start), cfg.hostname, start)
  {
    StageNameSimple(cfg.hostname, start);
    BaseJoin(cfg.tmpDir, ArchiveName(cfg.hostname, start));
  }

  // Two configurations' objects have the same name exactly if prefix, host and start
  // time are the same.
  lemma KeysAgreeIff(s: Sys, cfg: Config, start: int, cfg': Config, start': int)
    requires '/' !in cfg.hostname && !cfg.acceptance && '/' !in cfg'.hostname && !cfg'.acceptance
    ensures KeyOf(s, cfg, start) == KeyOf(s, cfg', start') <==>
            cfg.objectPrefix == cfg'.objectPrefix && cfg.hostname == cfg'.hostname && start == start'
  {
    KeyIs(s, cfg, start);
    KeyIs(s, cfg', start');
    if KeyOf(s, cfg, start) == KeyOf(s, cfg', start') {
      ObjectKeyInjective(s.date, cfg.objectPrefix, cfg.hostname, start, cfg'.objectPrefix, cfg'.hostname, start');
    }
  }

  ghost predicate Good(s: Sys, cfg: Config, start: int, c: Contents, data: string) {
    IsArchive(s, data, PrefixOf(s.layout, StageDir(cfg, start)), c, false)
  }

  // Only the run's own key changed, in configured buckets.
  predicate Only(cfg: Config, key: string, data: string, before: map<Place, string>,
                 after: map<Place, string>) {
    && (forall k :: k in before ==> k in after)
    && (forall k :: k in after ==>
       (k in before && after[k] == before[k]) || (IsBucket(cfg, k.0) && k.1 == key && after[k] == data))
  }

  ghost predicate Everywhere(cfg: Config, key: string, data: string, objects: map<Place, string>) {
    forall b :: IsBucket(cfg, b) ==> (b, key) in objects && objects[(b, key)] == data
  }

  lemma UploadEffect(s: Sys, w: World, bucket: Bucket, key: string, data: string)
    ensures var r := UploadSpec(s, w, bucket, key, data);
            && r.0.fs == w.fs && r.0.consul == w.consul && (r.1 ==> r.0.alive == w.alive)
            && (r.0.objects == w.objects || (|bucket.name| > 1 && r.0.objects == w.objects[(bucket, key) := data]))
            && (r.1 && |bucket.name| > 1 ==> r.0.objects == w.objects[(bucket, key) := data])
  {}

  lemma TwoUploads(s: Sys, w: World, cfg: Config, key: string, data: string)
    ensures var a := UploadSpec(s, w, Bucket(S3, cfg.s3Bucket), key, data);
            var b := UploadSpec(s, a.0, Bucket(GCS, cfg.gcsBucket), key, data);
            && Only(cfg, key, data, w.objects, a.0.objects) && Only(cfg, key, data, w.objects, b.0.objects)
            && (a.1 && b.1 ==> Everywhere(cfg, key, data, b.0.objects))
  {
    UploadEffect(s, w, Bucket(S3, cfg.s3Bucket), key, data);
    UploadEffect(s, UploadSpec(s, w, Bucket(S3, cfg.s3Bucket), key, data).0, Bucket(GCS, cfg.gcsBucket), key, data);
  }

  lemma RemoteEffect(s: Sys, w: World, cfg: Config, d: Draft, key: string, q: Path)
    requires key == RemotePath(s, cfg, d.startTime, d.fullFilename) && q == Resolve(s.cwd, d.fullFilename)
    requires q in w.fs.files
    ensures var r := RemoteSpec(s, w, cfg, d);
            && r.0.fs == w.fs && r.0.consul == w.consul && r.1 == d.(remoteFilePath := key)
            && Only(cfg, key, w.fs.files[q], w.objects, r.0.objects)
            && (r.2 ==> Everywhere(cfg, key, w.fs.files[q], r.0.objects))
  {
    var r := ReadAt(s, w, q);
    if r.1.Some? {
      TwoUploads(s, r.0, cfg, key, r.1.value);
      UploadEffect(s, r.0, Bucket(S3, cfg.s3Bucket), key, r.1.value);
      UploadEffect(s, UploadSpec(s, r.0, Bucket(S3, cfg.s3Bucket), key, r.1.value).0, Bucket(GCS, cfg.gcsBucket), key,
        r.1.value);
    }
  }

  // S3 comes first: if it refuses, GCS gets nothing.
  lemma RefusedFirst(s: Sys, w: World, cfg: Config, d: Draft)
    requires |cfg.s3Bucket| > 1 && s.fault(w.calls + 1) == Fails
    ensures var r := RemoteSpec(s, w, cfg, d); !r.2 && r.0.objects == w.objects
  {}

  lemma PostProcessEffect(s: Sys, w: World, d: Draft)
    ensures var r := PostProcessSpec(s, w, d);
            && r.0.objects == w.objects && (!r.1 ==> r.0.fs == w.fs)
            && r.0.consul ==
               (if r.1 then w.consul.(kv := w.consul.kv[ACK_KEY := FormatBytes(d.startTime)]) else w.consul)
  {}

  lemma PostProcessKeepsTree(s: Sys, w: World, d: Draft)
    requires Tree(w.fs)
    ensures Tree(PostProcessSpec(s, w, d).0.fs)
  {
    var a := PutKV(s, w, ACK_KEY, FormatBytes(d.startTime)).0;
    RemoveKeepsTree(s, a, Resolve(s.cwd, d.fullFilename));
    WipeKeepsTree(s, Remove(s, a, d.fullFilename).0, Resolve(s.cwd, d.localFilePath));
  }

  // ---- What a run does, wherever it stops ----

  // Objects change only under the run's own key, and only to its archive.
  ghost predicate Sent(s: Sys, cfg: Config, start: int, c: Contents, before: World, after: World) {
    && (forall k :: k in before.objects ==> k in after.objects)
    && (forall k :: k in after.objects ==>
          (k in before.objects && after.objects[k] == before.objects[k]) ||
          (IsBucket(cfg, k.0) && k.1 == KeyOf(s, cfg, start) && Good(s, cfg, start, c, after.objects[k])))
  }

  // The acknowledgement is written, and the archive is in every bucket.
  ghost predicate Acked(s: Sys, cfg: Config, start: int, c: Contents, before: World, after: World) {
    && after.consul == before.consul.(kv := before.consul.kv[ACK_KEY := FormatBytes(start)])
    && (forall b :: IsBucket(cfg, b) ==>
          (b, KeyOf(s, cfg, start)) in after.objects
            && Good(s, cfg, start, c, after.objects[(b, KeyOf(s, cfg, start))]))
  }

  // An acceptance run leaves its archive beside the staging directory.
  ghost predicate OnDisk(s: Sys, cfg: Config, start: int, c: Contents, fs: Fs) {
    var q := ArchiveAt(s, cfg, start);
    && At(fs, StageAt(s, cfg, start), c) && q in fs.files && Good(s, cfg, start, c, fs.files[q])
    && fs.files[q] == Pack(s, fs, StageDir(cfg, start))
  }

  // A run that fails once an upload has begun leaves its files where they are.
  ghost predicate Ran(s: Sys, cfg: Config, start: int, c: Contents, before: World, r: (World, bool)) {
    && Sent(s, cfg, start, c, before, r.0)
    && (if cfg.acceptance then r.0.consul == before.consul && (r.1 ==> OnDisk(s, cfg, start, c, r.0.fs))
        else Acked(s, cfg, start, c, before, r.0) || (!r.1 && r.0.consul == before.consul))
    && (!r.1 && r.0.objects != before.objects ==> OnDisk(s, cfg, start, c, r.0.fs))
  }

  // From the bytes delivered to what they are.
  lemma DeliveredGood(s: Sys, cfg: Config, start: int, c: Contents, data: string, key: string, w: World,
                      a: (World, bool))
    requires !cfg.acceptance && key == KeyOf(s, cfg, start) && Good(s, cfg, start, c, data)
    requires Only(cfg, key, data, w.objects, a.0.objects) && (a.1 ==> Everywhere(cfg, key, data, a.0.objects))
    requires a.0.consul == if a.1 then w.consul.(kv := w.consul.kv[ACK_KEY := FormatBytes(start)]) else w.consul
    requires OnDisk(s, cfg, start, c, w.fs) && (!a.1 ==> a.0.fs == w.fs)
    ensures Ran(s, cfg, start, c, w, a)
  {
    DeliveredSent(s, cfg, start, c, data, key, w, a.0);
  }

  lemma DeliveredSent(s: Sys, cfg: Config, start: int, c: Contents, data: string, key: string, w: World, after: World)
    requires key == KeyOf(s, cfg, start) && Good(s, cfg, start, c, data)
    requires Only(cfg, key, data, w.objects, after.objects)
    ensures Sent(s, cfg, start, c, w, after)
  {}

  lemma DeliverMeaning(s: Sys, w: World, cfg: Config, d: Draft, c: Contents)
    requires d.fullFilename == ArchivePath(cfg, d.startTime) && OnDisk(s, cfg, d.startTime, c, w.fs)
    ensures Ran(s, cfg, d.startTime, c, w, DeliverSpec(s, w, cfg, d))
  {
    if !cfg.acceptance {
      var q, key := ArchiveAt(s, cfg, d.startTime), KeyOf(s, cfg, d.startTime);
      RemoteEffect(s, w, cfg, d, key, q);
      var r := RemoteSpec(s, w, cfg, d);
      PostProcessEffect(s, r.0, r.1);
      DeliveredGood(s, cfg, d.startTime, c, w.fs.files[q], key, w,
        if r.2 then PostProcessSpec(s, r.0, r.1) else (r.0, false));
    }
  }

  lemma DeliverKeepsTree(s: Sys, w: World, cfg: Config, d: Draft)
    requires Tree(w.fs)
    ensures Tree(DeliverSpec(s, w, cfg, d).0.fs)
  {
    if !cfg.acceptance {
      var r := RemoteSpec(s, w, cfg, d);
      assert r.0.fs == w.fs;
      PostProcessKeepsTree(s, r.0, r.1);
    }
  }

  // The encryption step is given a directory: it fails and changes nothing.
  lemma EncryptionIsInert(s: Sys, w: World, cfg: Config, d: Draft, t: Tick, p: Path, c: Contents)
    requires p == Resolve(s.cwd, d.localFilePath) && At(w.fs, p, c) && Tree(w.fs)
    ensures EncryptStepSpec(s, w, cfg, d, t) == (if cfg.encryption == "" then w else Next(s, w))
  {
    assert (p + [META])[..|p|] == p;
    if cfg.encryption != "" {
      Crypt.EncryptDirectoryInert(s, w, d.localFilePath, cfg.encryption, t.salt, t.nonce);
    }
  }

  lemma RanNothing(s: Sys, cfg: Config, start: int, c: Contents, before: World, after: World)
    requires Outside(before, after)
    ensures Ran(s, cfg, start, c, before, (after, false))
  {}

  lemma RanFrom(s: Sys, cfg: Config, start: int, c: Contents, before: World, mid: World, r: (World, bool))
    requires Outside(before, mid) && Ran(s, cfg, start, c, mid, r)
    ensures Ran(s, cfg, start, c, before, r)
  {}

  // Once the archive is there: the inert encryption step, then the delivery.
  lemma SendMeaning(s: Sys, w: World, cfg: Config, d: Draft, t: Tick, c: Contents)
    requires Tree(w.fs) && OnDisk(s, cfg, d.startTime, c, w.fs)
    requires d.localFilePath == StageDir(cfg, d.startTime) && d.fullFilename == ArchivePath(cfg, d.startTime)
    ensures var r := DeliverSpec(s, EncryptStepSpec(s, w, cfg, d, t), cfg, d);
            Ran(s, cfg, d.startTime, c, w, r) && Tree(r.0.fs)
  {
    EncryptionIsInert(s, w, cfg, d, t, StageAt(s, cfg, d.startTime), c);
    var e := EncryptStepSpec(s, w, cfg, d, t);
    DeliverMeaning(s, e, cfg, d, c);
    DeliverKeepsTree(s, e, cfg, d);
    RanFrom(s, cfg, d.startTime, c, w, e, DeliverSpec(s, e, cfg, d));
  }

  // From a staging directory with all four files on.
  lemma ArchiveMeaning(s: Sys, w: World, cfg: Config, d: Draft, t: Tick, c: Contents, p: (World, Draft, bool))
    requires Lawful(s) && Tree(w.fs) && '/' !in cfg.hostname && At(w.fs, StageAt(s, cfg, d.startTime), c)
    requires d.localFilePath == StageDir(cfg, d.startTime) && p == CompressSpec(s, w, cfg, d)
    ensures Outside(w, p.0) && Tree(p.0.fs)
    ensures p.2 ==> var r := DeliverSpec(s, EncryptStepSpec(s, p.0, cfg, p.1, t), cfg, p.1);
                    Ran(s, cfg, d.startTime, c, w, r) && Tree(r.0.fs)
  {
    CompressFrame(s, w, cfg, d);
    if p.2 {
      TempNames(s, cfg, d.startTime);
      SiblingsApart(Resolve(s.cwd, cfg.tmpDir), StageBase(cfg, d.startTime), StageBase(cfg, d.startTime) + TAR_GZ);
      CompressArchive(s, w, cfg, d, c, StageAt(s, cfg, d.startTime), ArchiveAt(s, cfg, d.startTime), p);
      SendMeaning(s, p.0, cfg, p.1, t, c);
      RanFrom(s, cfg, d.startTime, c, w, p.0, DeliverSpec(s, EncryptStepSpec(s, p.0, cfg, p.1, t), cfg, p.1));
    }
  }

  lemma PackMeaning(s: Sys, w: World, cfg: Config, d: Draft, t: Tick, c: Contents, fs: Fs)
    requires Lawful(s) && Tree(w.fs) && '/' !in cfg.hostname
    requires d.localFilePath == StageDir(cfg, d.startTime) && c.meta == MarshalMeta(LEGACY, MetaOf(cfg, d, t))
    requires Put(w.fs, StageAt(s, cfg, d.startTime) + [META], c.meta) == Staged(fs, StageAt(s, cfg, d.startTime), c)
    ensures var r := PackSpec(s, w, cfg, d, t); Ran(s, cfg, d.startTime, c, w, r) && Tree(r.0.fs)
  {
    WriteMetaEffect(s, w, cfg, d, t, c.meta);
    MetaKeepsTree(s, w, cfg, d, t);
    var m := WriteMetaSpec(s, w, cfg, d, t);
    if m.1 {
      StagedAt(fs, StageAt(s, cfg, d.startTime), c);
      var p := CompressSpec(s, m.0, cfg, d);
      ArchiveMeaning(s, m.0, cfg, d, t, c, p);
      PackFrom(s, w, cfg, d, t, c, m, p);
    }
  }

  lemma PackFrom(s: Sys, w: World, cfg: Config, d: Draft, t: Tick, c: Contents, m: (World, bool),
                 p: (World, Draft, bool))
    requires m == WriteMetaSpec(s, w, cfg, d, t) && m.1 && p == CompressSpec(s, m.0, cfg, d)
    requires Outside(w, m.0) && Outside(m.0, p.0) && Tree(p.0.fs)
    requires p.2 ==> var r := DeliverSpec(s, EncryptStepSpec(s, p.0, cfg, p.1, t), cfg, p.1);
                     Ran(s, cfg, d.startTime, c, m.0, r) && Tree(r.0.fs)
    ensures var r := PackSpec(s, w, cfg, d, t); Ran(s, cfg, d.startTime, c, w, r) && Tree(r.0.fs)
  {
    if p.2 {
      RanFrom(s, cfg, d.startTime, c, w, m.0, DeliverSpec(s, EncryptStepSpec(s, p.0, cfg, p.1, t), cfg, p.1));
    } else {
      RanNothing(s, cfg, d.startTime, c, w, p.0);
    }
  }

  // From an empty staging directory on.
  lemma DataMeaning(s: Sys, w: World, cfg: Config, d: Draft, t: Tick, c: Contents, fs: Fs, a: (World, Draft, bool))
    requires Lawful(s) && Tree(w.fs) && '/' !in cfg.hostname
    requires w.fs == AddDirs(fs, StageAt(s, cfg, d.startTime)) && d.localFilePath == StageDir(cfg, d.startTime)
    requires DataOf(d) == c.(meta := "") && c.meta == MarshalMeta(LEGACY, MetaOf(cfg, SummedAll(s, d), t))
    requires a == WriteDataSpec(s, w, d)
    ensures Outside(w, a.0) && Tree(a.0.fs)
    ensures a.2 ==> var r := PackSpec(s, a.0, cfg, a.1, t); Ran(s, cfg, d.startTime, c, w, r) && Tree(r.0.fs)
  {
    WriteDataEffect(s, w, d);
    DataKeepsTree(s, w, d);
    if a.2 {
      PackMeaning(s, a.0, cfg, a.1, t, c, fs);
      RanFrom(s, cfg, d.startTime, c, w, a.0, PackSpec(s, a.0, cfg, a.1, t));
    }
  }

  lemma PreProcessEffect(s: Sys, w: World, cfg: Config, d: Draft)
    requires Tree(w.fs)
    ensures var r := PreProcessSpec(s, w, cfg, d);
            && Outside(w, r.0) && Tree(r.0.fs)
            && (r.2 ==> r.1 == d.(localFilePath := StageDir(cfg, d.startTime))
                        && r.0.fs == AddDirs(w.fs, StageAt(s, cfg, d.startTime)))
  {
    MkdirKeepsTree(s, w, StageAt(s, cfg, d.startTime));
  }

  lemma StageMeaning(s: Sys, w: World, cfg: Config, d: Draft, t: Tick, c: Contents)
    requires Lawful(s) && Tree(w.fs) && '/' !in cfg.hostname
    requires t.start == d.startTime && c == ContentsOf(s, cfg, d, t)
    ensures var r := StageSpec(s, w, cfg, d, t); Ran(s, cfg, d.startTime, c, w, r) && Tree(r.0.fs)
  {
    var m := PreProcessSpec(s, w, cfg, d);
    PreProcessEffect(s, w, cfg, d);
    if m.2 {
      var a := WriteDataSpec(s, m.0, m.1);
      DataMeaning(s, m.0, cfg, m.1, t, c, w.fs, a);
      StageFrom(s, w, cfg, d, t, c, m, a);
    } else {
      RanNothing(s, cfg, d.startTime, c, w, m.0);
    }
  }

  lemma StageFrom(s: Sys, w: World, cfg: Config, d: Draft, t: Tick, c: Contents, m: (World, Draft, bool),
                  a: (World, Draft, bool))
    requires m == PreProcessSpec(s, w, cfg, d) && m.2 && a == WriteDataSpec(s, m.0, m.1)
    requires Outside(w, m.0) && Outside(m.0, a.0) && Tree(a.0.fs)
    requires a.2 ==> var r := PackSpec(s, a.0, cfg, a.1, t); Ran(s, cfg, d.startTime, c, m.0, r) && Tree(r.0.fs)
    ensures var r := StageSpec(s, w, cfg, d, t); Ran(s, cfg, d.startTime, c, w, r) && Tree(r.0.fs)
  {
    if a.2 {
      RanFrom(s, cfg, d.startTime, c, w, m.0, PackSpec(s, a.0, cfg, a.1, t));
    } else {
      RanNothing(s, cfg, d.startTime, c, w, a.0);
    }
  }

  // ---- The snapshot of a run ----

  // A snapshot that records these lists, at the time and on the node of t.
  function Snapshot(s: Sys, cfg: Config, c: Client, t: Tick): Contents {
    ContentsOf(s, cfg,
      NewDraft(t.start).(kvJson := MarshalKVs(c.keys), pqJson := MarshalPQs(c.pqs), aclJson := MarshalACLs(c.acls)), t)
  }

  // A run writes down the lists the client then holds: new ones, or where the
  // listing failed, whatever it held before.
  lemma CollectMeaning(s: Sys, w: World, c: Client, start: int64)
    ensures var r := CollectSpec(s, w, c, start);
            && Outside(w, r.0) && r.0.fs == w.fs
            && r.2 == NewDraft(start).(kvJson := MarshalKVs(r.1.keys), pqJson := MarshalPQs(r.1.pqs),
                                       aclJson := MarshalACLs(r.1.acls))
  {}

  lemma DoWorkMeaning(s: Sys, w: World, cfg: Config, c: Client, t: Tick)
    requires Lawful(s) && Tree(w.fs) && '/' !in cfg.hostname
    ensures var r := DoWorkSpec(s, w, cfg, c, t);
            Ran(s, cfg, t.start, Snapshot(s, cfg, r.1, t), w, (r.0, r.2)) && Tree(r.0.fs)
  {
    CollectMeaning(s, w, c, t.start);
    var l := CollectSpec(s, w, c, t.start);
    StageMeaning(s, l.0, cfg, l.2, t, Snapshot(s, cfg, l.1, t));
    RanFrom(s, cfg, t.start, Snapshot(s, cfg, l.1, t), w, l.0, StageSpec(s, l.0, cfg, l.2, t));
  }

  // ---- When nothing fails ----

  // Nothing is in the way of the staging directory, its files, or the archive; an
  // earlier archive, or an empty directory in its place, is not.
  ghost predicate Clearance(s: Sys, w: World, cfg: Config, start: int) {
    var p := StageAt(s, cfg, start);
    && '/' !in cfg.hostname
    && CanMkdir(w.fs, p) && Room(AddDirs(w.fs, p), p)
    && (ArchiveAt(s, cfg, start) in w.fs.dirs ==> CanRemove(w.fs, ArchiveAt(s, cfg, start)))
  }

  ghost predicate Unobstructed(s: Sys, w: World, cfg: Config, start: int) {
    Smooth(s, w) && Clearance(s, w, cfg, start)
  }

  // There is a directory for the file q, and what is there can be removed.
  predicate Replaceable(fs: Fs, q: Path) {
    q != [] && q[..|q| - 1] in fs.dirs && (q in fs.dirs ==> CanRemove(fs, q))
  }

  lemma StillReplaceable(fs: Fs, p: Path, n: string, q: Path, data: string)
    requires Replaceable(fs, q) && !(q <= p) && q != p + [n]
    ensures Replaceable(Put(fs, p + [n], data), q)
  {
    assert p == (p + [n])[..|p|];
  }

  lemma StillReplaceable3(fs: Fs, p: Path, d: Draft, q: Path, after: Fs)
    requires Replaceable(fs, q) && !(q <= p) && !(p <= q)
    requires after == Put(Put(Put(fs, p + [DataName(KV, d.startTime)], d.kvJson),
                              p + [DataName(PQ, d.startTime)], d.pqJson), p + [DataName(ACL, d.startTime)], d.aclJson)
    ensures Replaceable(after, q)
  {
    var k := Put(fs, p + [DataName(KV, d.startTime)], d.kvJson);
    var u := Put(k, p + [DataName(PQ, d.startTime)], d.pqJson);
    assert forall n: string :: p <= p + [n];
    StillReplaceable(fs, p, DataName(KV, d.startTime), q, d.kvJson);
    StillReplaceable(k, p, DataName(PQ, d.startTime), q, d.pqJson);
    StillReplaceable(u, p, DataName(ACL, d.startTime), q, d.aclJson);
  }

  lemma CompressOk(s: Sys, w: World, cfg: Config, d: Draft, p: Path, q: Path)
    requires Smooth(s, w) && p == Resolve(s.cwd, d.localFilePath) && q == ArchiveAt(s, cfg, d.startTime)
    requires Replaceable(w.fs, q) && p in w.fs.dirs && p != q && p !in w.fs.files
    ensures var r := CompressSpec(s, w, cfg, d);
            && r.2 && Smooth(s, r.0) && q in r.0.fs.files && p !in r.0.fs.files
            && r.1 == d.(fullFilename := ArchivePath(cfg, d.startTime))
  {
    var m := RemoveAt(s, w, q).0;
    assert |q[..|q| - 1]| < |q|;
    TarGzEffect(s, m, ArchivePath(cfg, d.startTime), d.localFilePath);
  }

  lemma DeliverOk(s: Sys, w: World, cfg: Config, d: Draft, q: Path)
    requires Smooth(s, w) && q in w.fs.files && q == Resolve(s.cwd, d.fullFilename)
    ensures var r := DeliverSpec(s, w, cfg, d); r.1 && Smooth(s, r.0)
  {
    if !cfg.acceptance {
      RemoteOk(s, w, cfg, d, q);
      var r := RemoteSpec(s, w, cfg, d);
      PostProcessOk(s, r.0, r.1);
    }
  }

  lemma UploadOk(s: Sys, w: World, bucket: Bucket, key: string, data: string)
    requires Smooth(s, w)
    ensures var r := UploadSpec(s, w, bucket, key, data); r.1 && Smooth(s, r.0)
  {}

  lemma RemoteOk(s: Sys, w: World, cfg: Config, d: Draft, q: Path)
    requires Smooth(s, w) && q in w.fs.files && q == Resolve(s.cwd, d.fullFilename)
    ensures var r := RemoteSpec(s, w, cfg, d); r.2 && Smooth(s, r.0)
  {
    var r := ReadAt(s, w, q);
    var key := RemotePath(s, cfg, d.startTime, d.fullFilename);
    UploadOk(s, r.0, Bucket(S3, cfg.s3Bucket), key, w.fs.files[q]);
    UploadOk(s, UploadSpec(s, r.0, Bucket(S3, cfg.s3Bucket), key, w.fs.files[q]).0, Bucket(GCS, cfg.gcsBucket), key,
      w.fs.files[q]);
  }

  lemma PostProcessOk(s: Sys, w: World, d: Draft)
    requires Smooth(s, w)
    ensures var r := PostProcessSpec(s, w, d); r.1 && Smooth(s, r.0)
  {}

  lemma EncryptStepOk(s: Sys, w: World, cfg: Config, d: Draft, t: Tick)
    requires Smooth(s, w) && Resolve(s.cwd, d.localFilePath) !in w.fs.files
    ensures var e := EncryptStepSpec(s, w, cfg, d, t); Smooth(s, e) && e.fs == w.fs
  {
    if cfg.encryption != "" {
      Crypt.EncryptDirectoryInert(s, w, d.localFilePath, cfg.encryption, t.salt, t.nonce);
    }
  }

  lemma ArchiveOk(s: Sys, w: World, cfg: Config, d: Draft, t: Tick, p: Path, q: Path, c: (World, Draft, bool))
    requires Smooth(s, w) && p == Resolve(s.cwd, d.localFilePath) && q == ArchiveAt(s, cfg, d.startTime)
    requires Replaceable(w.fs, q) && p in w.fs.dirs && p != q && p !in w.fs.files && c == CompressSpec(s, w, cfg, d)
    ensures c.2
    ensures var r := DeliverSpec(s, EncryptStepSpec(s, c.0, cfg, c.1, t), cfg, c.1); r.1 && Smooth(s, r.0)
  {
    CompressOk(s, w, cfg, d, p, q);
    EncryptStepOk(s, c.0, cfg, c.1, t);
    DeliverOk(s, EncryptStepSpec(s, c.0, cfg, c.1, t), cfg, c.1, q);
  }

  lemma PackOk(s: Sys, w: World, cfg: Config, d: Draft, t: Tick, p: Path, q: Path)
    requires Smooth(s, w) && p == Resolve(s.cwd, d.localFilePath) && q == ArchiveAt(s, cfg, d.startTime)
    requires Replaceable(w.fs, q) && Room(w.fs, p) && !(p <= q) && !(q <= p) && Tree(w.fs)
    ensures var r := PackSpec(s, w, cfg, d, t); r.1 && Smooth(s, r.0)
  {
    WriteMetaEffect(s, w, cfg, d, t, MarshalMeta(LEGACY, MetaOf(cfg, d, t)));
    MetaKeepsTree(s, w, cfg, d, t);
    var m := WriteMetaSpec(s, w, cfg, d, t);
    assert forall n: string :: p <= p + [n];
    StillReplaceable(w.fs, p, META, q, MarshalMeta(LEGACY, MetaOf(cfg, d, t)));
    ArchiveOk(s, m.0, cfg, d, t, p, q, CompressSpec(s, m.0, cfg, d));
  }

  lemma StageOk(s: Sys, w: World, cfg: Config, d: Draft, t: Tick)
    requires Unobstructed(s, w, cfg, d.startTime) && Tree(w.fs)
    ensures var r := StageSpec(s, w, cfg, d, t); r.1 && Smooth(s, r.0)
  {
    var p, q := StageAt(s, cfg, d.startTime), ArchiveAt(s, cfg, d.startTime);
    PreProcessEffect(s, w, cfg, d);
    var m := PreProcessSpec(s, w, cfg, d);
    WriteDataEffect(s, m.0, m.1);
    DataKeepsTree(s, m.0, m.1);
    ReadyArchive(s, w, cfg, d.startTime);
    var a := WriteDataSpec(s, m.0, m.1);
    StillReplaceable3(m.0.fs, p, m.1, q, a.0.fs);
    PackOk(s, a.0, cfg, a.1, t, p, q);
  }

  lemma ReadyArchive(s: Sys, w: World, cfg: Config, start: int)
    requires Unobstructed(s, w, cfg, start)
    ensures var p, q := StageAt(s, cfg, start), ArchiveAt(s, cfg, start);
            !(p <= q) && !(q <= p) && Replaceable(AddDirs(w.fs, p), q)
  {
    var p, q := StageAt(s, cfg, start), ArchiveAt(s, cfg, start);
    var tmp := Resolve(s.cwd, cfg.tmpDir);
    TempNames(s, cfg, start);
    SiblingsApart(tmp, StageBase(cfg, start), StageBase(cfg, start) + TAR_GZ);
    assert q[..|q| - 1] == tmp == p[..|tmp|];
    assert forall i :: 0 <= i <= |p| ==> p[..i] <= p;
  }

  // With nothing failing and nothing in the way a run completes.
  lemma DoWorkCompletes(s: Sys, w: World, cfg: Config, c: Client, t: Tick)
    requires Unobstructed(s, w, cfg, t.start) && Tree(w.fs)
    ensures var r := DoWorkSpec(s, w, cfg, c, t); r.2 && Smooth(s, r.0)
  {
    CollectAlive(s, w, c, t.start);
    CollectedCompletes(s, w, cfg, c, t);
  }

  lemma CollectedCompletes(s: Sys, w: World, cfg: Config, c: Client, t: Tick)
    requires Smooth(s, CollectSpec(s, w, c, t.start).0) && Clearance(s, w, cfg, t.start) && Tree(w.fs)
    ensures var r := DoWorkSpec(s, w, cfg, c, t); r.2 && Smooth(s, r.0)
  {
    var l := CollectSpec(s, w, c, t.start);
    CollectMeaning(s, w, c, t.start);
    StageOk(s, l.0, cfg, l.2, t);
  }

  // Nothing fails but the three listings: the run completes all the same, with
  // what the client held before.
  lemma UnlistedCompletes(s: Sys, w: World, cfg: Config, c: Client, t: Tick)
    requires w.alive && (forall i :: w.calls <= i < w.calls + 3 ==> s.fault(i) == Fails) && FineFrom(s, w.calls + 3)
    requires Clearance(s, w, cfg, t.start) && Tree(w.fs)
    ensures var r := DoWorkSpec(s, w, cfg, c, t); r.2 && r.1 == c && r.0.alive
  {
    UnlistedKeeps(s, w, c, t.start);
    CollectedCompletes(s, w, cfg, c, t);
  }

  lemma UnlistedKeeps(s: Sys, w: World, c: Client, start: int64)
    requires w.alive && (forall i :: w.calls <= i < w.calls + 3 ==> s.fault(i) == Fails) && FineFrom(s, w.calls + 3)
    ensures var l := CollectSpec(s, w, c, start); l.1 == c && Smooth(s, l.0)
  {}

  lemma CollectAlive(s: Sys, w: World, c: Client, start: int64)
    requires Smooth(s, w)
    ensures Smooth(s, CollectSpec(s, w, c, start).0)
  {}
}
