/**
 services/backup_service.go: list, serialise, stage four files, archive, upload,
 clean up.
 */
module BackupService {
  import opened Wrappers
  import opened Decimal
  import opened Paths
  import opened Names
  import opened Records
  import opened Metadata
  import opened World
  import opened Env
  import opened Config
  import opened ConsulClient
  import Archiver

  // The fields of a BackupData; the keys of the checksums are the family tags.
  datatype Draft = Draft(
    kvData: Slice<KVPair>, pqData: Slice<PreparedQuery>, aclData: Slice<ACLEntry>,
    kvJson: string, pqJson: string, aclJson: string,
    startTime: int64, localPath: string, remotePath: string, checksums: map<Family, string>)

  function NewDraft(start: int64): Draft {
    Draft(Nil, Nil, Nil, "", "", "", start, "", "", map[])
  }

  // ---- What each step does ----

  function CollectSpec(s: Sys, w: World, c: Client, start: int64): (World, Client, Option<Draft>) {
    var k := ListKeysSpec(s, w, c);
    if !k.2 then (k.0, k.1, None)
    else
      var p := ListPQsSpec(s, k.0, k.1);
      if !p.2 then (p.0, p.1, None)
      else
        var a := ListACLsSpec(s, p.0, p.1);
        if !a.2 then (a.0, a.1, None)
        else (a.0, a.1, Some(NewDraft(start).(kvData := a.1.keys, pqData := a.1.pqs, aclData := a.1.acls)))
  }

  function SerializeSpec(d: Draft): Draft {
    d.(kvJson := MarshalKVs(d.kvData), pqJson := MarshalPQs(d.pqData), aclJson := MarshalACLs(d.aclData))
  }

  function Lookup(m: map<Family, string>, key: Family): string { if key in m then m[key] else "" }

  function MetaOf(cfg: Config, d: Draft, end: int64): Meta {
    Meta(Lookup(d.checksums, ACL), cfg.version, end, Lookup(d.checksums, KV),
         cfg.hostname, Lookup(d.checksums, PQ), d.startTime)
  }

  function WriteMetadataSpec(s: Sys, w: World, cfg: Config, d: Draft, end: int64): (World, bool) {
    Write(s, w, Join(d.localPath, META), MarshalMeta(SERVICE, MetaOf(cfg, d, end)))
  }

  function WriteFamilySpec(s: Sys, w: World, d: Draft, f: Family, json: string): (World, Draft, bool) {
    var a := Write(s, w, Join(d.localPath, DataName(f, d.startTime)), json);
    (a.0, if a.1 then d.(checksums := d.checksums[f := s.sha256(json)]) else d, a.1)
  }

  function WriteDataSpec(s: Sys, w: World, d: Draft): (World, Draft, bool) {
    var k := WriteFamilySpec(s, w, d, KV, d.kvJson);
    if !k.2 then k
    else
      var p := WriteFamilySpec(s, k.0, k.1, PQ, d.pqJson);
      if !p.2 then p
      else WriteFamilySpec(s, p.0, p.1, ACL, d.aclJson)
  }

  function WriteLocalFilesSpec(s: Sys, w: World, cfg: Config, d: Draft, end: int64): (World, Draft, bool) {
    var d1 := d.(localPath := Join(cfg.tmpDir, StageName(cfg.hostname, d.startTime)));
    var m := Mkdir(s, w, d1.localPath);
    if !m.1 then (m.0, d1, false)
    else
      var a := WriteDataSpec(s, m.0, d1);
      if !a.2 then a
      else
        var x := WriteMetadataSpec(s, a.0, cfg, a.1, end);
        (x.0, a.1, x.1)
  }

  function ArchiveBase(cfg: Config, start: int): string {
    if cfg.acceptance then ACCEPTANCE + TAR_GZ else ArchiveName(cfg.hostname, start)
  }

  function ArchivePath(cfg: Config, start: int): string { Join(cfg.tmpDir, ArchiveBase(cfg, start)) }

  function CompressSpec(s: Sys, w: World, cfg: Config, d: Draft): (World, Draft, bool) {
    var path := ArchivePath(cfg, d.startTime);
    var a := Archiver.TarGzSpec(s, w, path, d.localPath);
    (a.0, if a.1 then d.(remotePath := path) else d, a.1)
  }

  // The S3 bucket's name if it is set, else the GCS bucket's, else none.
  function BucketOf(cfg: Config): Option<string> {
    if cfg.s3Bucket != "" then Some(cfg.s3Bucket)
    else if cfg.gcsBucket != "" then Some(cfg.gcsBucket)
    else None
  }

  // That bucket of the store the service was given a client for.
  function PlaceOf(cfg: Config): Bucket
    requires cfg.storage.Some? && BucketOf(cfg).Some?
  {
    Bucket(cfg.storage.value, BucketOf(cfg).value)
  }

  function KeyOf(s: Sys, cfg: Config, start: int, archive: string): string {
    ObjectKey(if cfg.objectPrefix == "" then "backups" else cfg.objectPrefix, s.date(start), Base(archive))
  }

  function UploadSpec(s: Sys, w: World, cfg: Config, d: Draft): (World, bool) {
    if cfg.acceptance then (w, true)
    else if cfg.storage.None? then (w, false)
    else
      var r := Read(s, w, d.remotePath);
      if r.1.None? || BucketOf(cfg).None? then (r.0, false)
      else Upload(s, r.0, PlaceOf(cfg), KeyOf(s, cfg, d.startTime, d.remotePath), r.1.value)
  }

  function CleanupSpec(s: Sys, w: World, cfg: Config, d: Draft): World {
    var a := if d.localPath != "" then RemoveAll(s, w, d.localPath).0 else w;
    if d.remotePath != "" && !cfg.acceptance then Remove(s, a, d.remotePath).0 else a
  }

  // The run from each of its last three steps on.
  function SendSpec(s: Sys, w: World, cfg: Config, d: Draft): (World, Outcome) {
    var sent := UploadSpec(s, w, cfg, d);
    if !sent.1 then (sent.0, Stopped(Uploading)) else (CleanupSpec(s, sent.0, cfg, d), Completed)
  }

  function PackSpec(s: Sys, w: World, cfg: Config, d: Draft): (World, Outcome) {
    var packed := CompressSpec(s, w, cfg, d);
    if !packed.2 then (packed.0, Stopped(Archiving)) else SendSpec(s, packed.0, cfg, packed.1)
  }

  function StageSpec(s: Sys, w: World, cfg: Config, d: Draft, end: int64): (World, Outcome) {
    var staged := WriteLocalFilesSpec(s, w, cfg, d, end);
    if !staged.2 then (staged.0, Stopped(Staging)) else PackSpec(s, staged.0, cfg, staged.1)
  }

  function RunBackupSpec(s: Sys, w: World, cfg: Config, c: Client, start: int64, end: int64): (World, Client, Outcome) {
    var collected := CollectSpec(s, w, c, start);
    if collected.2.None? then (collected.0, collected.1, Stopped(Collecting))
    else
      var r := StageSpec(s, collected.0, cfg, SerializeSpec(collected.2.value), end);
      (r.0, collected.1, r.1)
  }

  // ---- The service ----

  class BackupData {
    var KVData: Slice<KVPair>
    var PQData: Slice<PreparedQuery>
    var ACLData: Slice<ACLEntry>
    var KVJSONData: string
    var PQJSONData: string
    var ACLJSONData: string
    var StartTime: int64
    var LocalPath: string
    var RemotePath: string
    var Checksums: map<Family, string>

    constructor (start: int64)
      ensures View() == NewDraft(start)
    {
      KVData, PQData, ACLData := Nil, Nil, Nil;
      KVJSONData, PQJSONData, ACLJSONData := "", "", "";
      StartTime, LocalPath, RemotePath, Checksums := start, "", "", map[];
    }

    function View(): Draft
      reads this
    {
      Draft(KVData, PQData, ACLData, KVJSONData, PQJSONData, ACLJSONData, StartTime, LocalPath, RemotePath, Checksums)
    }
  }

  class BackupService {
    const config: Config
    const consul: Consul
    const env: Env := consul.env

    constructor (config: Config, consul: Consul)
      ensures this.config == config && this.consul == consul
    {
      this.config := config;
      this.consul := consul;
    }

    method CollectData(now: int64) returns (data: BackupData?)
      modifies env, consul
      ensures data != null ==> fresh(data)
      ensures (env.w, consul.View(), if data == null then None else Some(data.View()))
           == CollectSpec(env.sys, old(env.w), old(consul.View()), now)
    {
      var d := new BackupData(now);
      var ok := consul.ListKeys();
      if !ok { return null; }
      d.KVData := consul.KeyData;
      ok := consul.ListPQs();
      if !ok { return null; }
      d.PQData := consul.PQData;
      ok := consul.ListACLs();
      if !ok { return null; }
      d.ACLData := consul.ACLData;
      return d;
    }

    // json.Marshal does not fail on these types.
    method SerializeData(data: BackupData)
      modifies data
      ensures data.View() == SerializeSpec(old(data.View()))
    {
      data.KVJSONData := MarshalKVs(data.KVData);
      data.PQJSONData := MarshalPQs(data.PQData);
      data.ACLJSONData := MarshalACLs(data.ACLData);
    }

    method WriteFamily(data: BackupData, f: Family, json: string) returns (ok: bool)
      modifies env, data`Checksums
      ensures (env.w, data.View(), ok) == WriteFamilySpec(env.sys, old(env.w), old(data.View()), f, json)
    {
      ok := env.WriteFile(Join(data.LocalPath, DataName(f, data.StartTime)), json);
      if ok {
        data.Checksums := data.Checksums[f := env.sys.sha256(json)];
      }
    }

    method WriteMetadata(data: BackupData, now: int64) returns (ok: bool)
      modifies env
      ensures (env.w, ok) == WriteMetadataSpec(env.sys, old(env.w), config, data.View(), now)
    {
      var meta := Meta(Lookup(data.Checksums, ACL), config.version, now, Lookup(data.Checksums, KV),
                       config.hostname, Lookup(data.Checksums, PQ), data.StartTime);
      ok := env.WriteFile(Join(data.LocalPath, META), MarshalMeta(SERVICE, meta));
    }

    method WriteLocalFiles(data: BackupData, now: int64) returns (ok: bool)
      modifies env, data
      ensures (env.w, data.View(), ok) == WriteLocalFilesSpec(env.sys, old(env.w), config, old(data.View()), now)
    {
      data.LocalPath := Join(config.tmpDir, StageName(config.hostname, data.StartTime));
      ok := env.MkdirAll(data.LocalPath);
      if !ok { return; }
      ok := WriteFamily(data, KV, data.KVJSONData);
      if !ok { return; }
      ok := WriteFamily(data, PQ, data.PQJSONData);
      if !ok { return; }
      ok := WriteFamily(data, ACL, data.ACLJSONData);
      if !ok { return; }
      ok := WriteMetadata(data, now);
    }

    method CompressBackup(data: BackupData) returns (ok: bool)
      modifies env, data`RemotePath
      ensures (env.w, data.View(), ok) == CompressSpec(env.sys, old(env.w), config, old(data.View()))
    {
      var filename := if config.acceptance then ACCEPTANCE + TAR_GZ
                      else ArchiveName(config.hostname, data.StartTime);
      var archivePath := Join(config.tmpDir, filename);
      ok := Archiver.TarGz(env, archivePath, data.LocalPath);
      if !ok { return; }
      data.RemotePath := archivePath;
    }

    method UploadBackup(data: BackupData) returns (ok: bool)
      modifies env
      ensures (env.w, ok) == UploadSpec(env.sys, old(env.w), config, data.View())
    {
      if config.acceptance { return true; }
      if config.storage.None? { return false; }
      var archive := env.ReadFile(data.RemotePath);
      if archive.None? { return false; }
      var prefix := config.objectPrefix;
      if prefix == "" { prefix := "backups"; }
      var key := ObjectKey(prefix, env.sys.date(data.StartTime), Base(data.RemotePath));
      var bucket: string;
      if config.s3Bucket != "" {
        bucket := config.s3Bucket;
      } else if config.gcsBucket != "" {
        bucket := config.gcsBucket;
      } else {
        return false;
      }
      ok := env.UploadObject(Bucket(config.storage.value, bucket), key, archive.value);
    }

    // Failed removals are only logged.
    method Cleanup(data: BackupData)
      modifies env
      ensures env.w == CleanupSpec(env.sys, old(env.w), config, data.View())
    {
      if data.LocalPath != "" {
        var _ := env.RemoveTree(data.LocalPath);
      }
      if data.RemotePath != "" && !config.acceptance {
        var _ := env.RemoveFile(data.RemotePath);
      }
    }

    method RunBackup(start: int64, end: int64) returns (r: Outcome)
      modifies env, consul
      ensures (env.w, consul.View(), r) == RunBackupSpec(env.sys, old(env.w), config, old(consul.View()), start, end)
    {
      var data := CollectData(start);
      if data == null { return Stopped(Collecting); }
      SerializeData(data);
      var ok := WriteLocalFiles(data, end);
      if !ok { return Stopped(Staging); }
      ok := CompressBackup(data);
      if !ok { return Stopped(Archiving); }
      ok := UploadBackup(data);
      if !ok { return Stopped(Uploading); }
      Cleanup(data);
      return Completed;
    }
  }
}
