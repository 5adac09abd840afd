/**
 services/restore_service.go: download, unpack, read the metadata, load the
 three lists it points to, replay them, clean up.
 */
module RestoreService {
  import opened Wrappers
  import opened Paths
  import opened Names
  import opened Json
  import opened Records
  import opened Metadata
  import opened World
  import opened Env
  import opened Config
  import opened ConsulClient
  import Archiver
  import BackupService

  // The fields of a RestoreData.
  datatype Draft = Draft(
    restorePath: string, localPath: string, extractedPath: string,
    kvData: Slice<KVPair>, pqData: Slice<PreparedQuery>, aclData: Slice<ACLEntry>, metadata: Fields)

  function NewDraft(path: string): Draft { Draft(path, "", "", Nil, Nil, Nil, NoField) }

  const EXTRACTED := ".extracted"
  const ARCHIVE := ACCEPTANCE + TAR_GZ

  // ---- What each step does ----

  // A nil storage client panics; with no bucket there is an error.
  function DownloadSpec(s: Sys, w: World, cfg: Config, path: string): (World, Option<Draft>) {
    if cfg.acceptance then (w, Some(NewDraft(path).(localPath := Join(cfg.tmpDir, ARCHIVE))))
    else if BackupService.BucketOf(cfg).None? then (w, None)
      else if cfg.storage.None? then (Halt(w), None)
      else
        var r := Download(s, w, BackupService.PlaceOf(cfg), path);
        if r.1.None? then (r.0, None)
        else
          var d := NewDraft(path).(localPath := Join(cfg.tmpDir, Base(path)));
          var a := Write(s, r.0, d.localPath, r.1.value);
          (a.0, if a.1 then Some(d) else None)
  }

  function ExtractSpec(s: Sys, w: World, d: Draft): (World, Draft, bool) {
    var d1 := d.(extractedPath := d.localPath + EXTRACTED);
    var m := Mkdir(s, w, d1.extractedPath);
    if !m.1 then (m.0, d1, false)
    else
      var a := Archiver.UnTarGzSpec(s, m.0, d1.localPath, d1.extractedPath);
      (a.0, d1, a.1)
  }

  function LoadMetadataSpec(s: Sys, w: World, d: Draft): (World, Draft, bool) {
    var r := Read(s, w, Join(d.extractedPath, META));
    if r.1.None? then (r.0, d, false)
    else
      match UnmarshalMap(r.1.value)
      case None => (r.0, d, false)
      case Some(m) => (r.0, d.(metadata := m), true)
  }

  // An unreadable file is skipped; an unparsable one is an error.
  function LoadKVSpec(s: Sys, w: World, d: Draft, time: int): (World, Draft, bool) {
    var r := Read(s, w, Join(d.extractedPath, DataName(KV, time)));
    if r.1.None? then (r.0, d, true)
    else
      match UnmarshalKVs(r.1.value)
      case None => (r.0, d, false)
      case Some(l) => (r.0, d.(kvData := l), true)
  }

  function LoadPQSpec(s: Sys, w: World, d: Draft, time: int): (World, Draft, bool) {
    var r := Read(s, w, Join(d.extractedPath, DataName(PQ, time)));
    if r.1.None? then (r.0, d, true)
    else
      match UnmarshalPQs(r.1.value)
      case None => (r.0, d, false)
      case Some(l) => (r.0, d.(pqData := l), true)
  }

  function LoadACLSpec(s: Sys, w: World, d: Draft, time: int): (World, Draft, bool) {
    var r := Read(s, w, Join(d.extractedPath, DataName(ACL, time)));
    if r.1.None? then (r.0, d, true)
    else
      match UnmarshalACLs(r.1.value)
      case None => (r.0, d, false)
      case Some(l) => (r.0, d.(aclData := l), true)
  }

  function LoadFamiliesSpec(s: Sys, w: World, d: Draft, time: int): (World, Draft, bool) {
    var k := LoadKVSpec(s, w, d, time);
    if !k.2 then k
    else
      var p := LoadPQSpec(s, k.0, k.1, time);
      if !p.2 then p else LoadACLSpec(s, p.0, p.1, time)
  }

  function LoadBackupDataSpec(s: Sys, w: World, d: Draft): (World, Draft, bool) {
    match StartTimeOf(d.metadata)
    case None => (w, d, true)
    case Some(time) => LoadFamiliesSpec(s, w, d, time)
  }

  // All three families are attempted; the count is of the ones that failed.
  function RestoreToConsulSpec(s: Sys, w: World, d: Draft): (World, nat) {
    var k := if d.kvData.Len() > 0 then ReplayKeys(s, w, d.kvData.Elems()) else (w, true);
    var p := if d.pqData.Len() > 0 then ReplayPQs(s, k.0, d.pqData.Elems()) else (k.0, true);
    var a := if d.aclData.Len() > 0 then ReplayACLs(s, p.0, d.aclData.Elems()) else (p.0, true);
    (a.0, (if k.1 then 0 else 1) + (if p.1 then 0 else 1) + (if a.1 then 0 else 1))
  }

  function CleanupSpec(s: Sys, w: World, d: Draft): World {
    var a := if d.localPath != "" then Remove(s, w, d.localPath).0 else w;
    if d.extractedPath != "" then RemoveAll(s, a, d.extractedPath).0 else a
  }

  function InspectSpec(s: Sys, w: World, d: Draft): (World, Draft, Outcome) {
    var m := LoadMetadataSpec(s, w, d);
    if !m.2 then (m.0, m.1, Stopped(Inspecting))
    else
      var l := LoadBackupDataSpec(s, m.0, m.1);
      (l.0, l.1, if l.2 then Completed else Stopped(Loading))
  }

  // Everything up to the replay: the loaded draft, or where loading stopped.
  function LoadSpec(s: Sys, w: World, d: Draft): (World, Draft, Outcome) {
    var x := ExtractSpec(s, w, d);
    if !x.2 then (x.0, x.1, Stopped(Extracting)) else InspectSpec(s, x.0, x.1)
  }

  function FinishSpec(s: Sys, w: World, d: Draft): (World, Outcome) {
    var r := RestoreToConsulSpec(s, w, d);
    (CleanupSpec(s, r.0, d), if r.1 > 0 then Stopped(Replaying(r.1)) else Completed)
  }

  // What follows a download.
  function UnpackSpec(s: Sys, w: World, d: Draft): (World, Outcome) {
    var l := LoadSpec(s, w, d);
    if l.2 != Completed then (CleanupSpec(s, l.0, l.1), l.2) else FinishSpec(s, l.0, l.1)
  }

  function RunRestoreSpec(s: Sys, w: World, cfg: Config, path: string): (World, Outcome) {
    var got := DownloadSpec(s, w, cfg, path);
    if got.1.None? then (got.0, Stopped(Downloading)) else UnpackSpec(s, got.0, got.1.value)
  }

  // ---- The service ----

  class RestoreData {
    var RestorePath: string
    var LocalPath: string
    var ExtractedPath: string
    var KVData: Slice<KVPair>
    var PQData: Slice<PreparedQuery>
    var ACLData: Slice<ACLEntry>
    var Metadata: Fields

    constructor (path: string)
      ensures View() == NewDraft(path)
    {
      RestorePath, LocalPath, ExtractedPath := path, "", "";
      KVData, PQData, ACLData, Metadata := Nil, Nil, Nil, NoField;
    }

    function View(): Draft
      reads this
    {
      Draft(RestorePath, LocalPath, ExtractedPath, KVData, PQData, ACLData, Metadata)
    }
  }

  class RestoreService {
    const config: Config
    const consul: Consul
    const env: Env := consul.env

    constructor (config: Config, consul: Consul)
      ensures this.config == config && this.consul == consul
    {
      this.config := config;
      this.consul := consul;
    }

    method DownloadBackup(restorePath: string) returns (data: RestoreData?)
      modifies env
      ensures data != null ==> fresh(data)
      ensures (env.w, if data == null then None else Some(data.View()))
           == DownloadSpec(env.sys, old(env.w), config, restorePath)
    {
      var d := new RestoreData(restorePath);
      if config.acceptance {
        d.LocalPath := Join(config.tmpDir, ARCHIVE);
        return d;
      }
      var bucket: string;
      if config.s3Bucket != "" {
        bucket := config.s3Bucket;
      } else if config.gcsBucket != "" {
        bucket := config.gcsBucket;
      } else {
        return null;
      }
      if config.storage.None? {
        env.Fatal();
        return null;
      }
      var backupData := env.DownloadObject(Bucket(config.storage.value, bucket), restorePath);
      if backupData.None? { return null; }
      d.LocalPath := Join(config.tmpDir, Base(restorePath));
      var ok := env.WriteFile(d.LocalPath, backupData.value);
      if !ok { return null; }
      return d;
    }

    method ExtractBackup(data: RestoreData) returns (ok: bool)
      modifies env, data`ExtractedPath
      ensures (env.w, data.View(), ok) == ExtractSpec(env.sys, old(env.w), old(data.View()))
    {
      data.ExtractedPath := data.LocalPath + EXTRACTED;
      ok := env.MkdirAll(data.ExtractedPath);
      if !ok { return; }
      ok := Archiver.UnTarGz(env, data.LocalPath, data.ExtractedPath);
    }

    method LoadMetadata(data: RestoreData) returns (ok: bool)
      modifies env, data`Metadata
      ensures (env.w, data.View(), ok) == LoadMetadataSpec(env.sys, old(env.w), old(data.View()))
    {
      var content := env.ReadFile(Join(data.ExtractedPath, META));
      if content.None? { return false; }
      var meta := UnmarshalMap(content.value);
      if meta.None? { return false; }
      data.Metadata := meta.value;
      return true;
    }

    method LoadKV(data: RestoreData, timestamp: int) returns (ok: bool)
      modifies env, data`KVData
      ensures (env.w, data.View(), ok) == LoadKVSpec(env.sys, old(env.w), old(data.View()), timestamp)
    {
      var kvFile := env.ReadFile(Join(data.ExtractedPath, DataName(KV, timestamp)));
      if kvFile.None? { return true; }
      var kvs := UnmarshalKVs(kvFile.value);
      if kvs.None? { return false; }
      data.KVData := kvs.value;
      return true;
    }

    method LoadPQ(data: RestoreData, timestamp: int) returns (ok: bool)
      modifies env, data`PQData
      ensures (env.w, data.View(), ok) == LoadPQSpec(env.sys, old(env.w), old(data.View()), timestamp)
    {
      var pqFile := env.ReadFile(Join(data.ExtractedPath, DataName(PQ, timestamp)));
      if pqFile.None? { return true; }
      var pqs := UnmarshalPQs(pqFile.value);
      if pqs.None? { return false; }
      data.PQData := pqs.value;
      return true;
    }

    method LoadACL(data: RestoreData, timestamp: int) returns (ok: bool)
      modifies env, data`ACLData
      ensures (env.w, data.View(), ok) == LoadACLSpec(env.sys, old(env.w), old(data.View()), timestamp)
    {
      var aclFile := env.ReadFile(Join(data.ExtractedPath, DataName(ACL, timestamp)));
      if aclFile.None? { return true; }
      var acls := UnmarshalACLs(aclFile.value);
      if acls.None? { return false; }
      data.ACLData := acls.value;
      return true;
    }

    method LoadBackupData(data: RestoreData) returns (ok: bool)
      modifies env, data`KVData, data`PQData, data`ACLData
      ensures (env.w, data.View(), ok) == LoadBackupDataSpec(env.sys, old(env.w), old(data.View()))
    {
      var startTime := StartTimeOf(data.Metadata);
      if startTime.None? { return true; }
      ok := LoadKV(data, startTime.value);
      if !ok { return; }
      ok := LoadPQ(data, startTime.value);
      if !ok { return; }
      ok := LoadACL(data, startTime.value);
    }

    method RestoreToConsul(data: RestoreData) returns (errorCount: nat)
      modifies env
      ensures (env.w, errorCount) == RestoreToConsulSpec(env.sys, old(env.w), data.View())
    {
      errorCount := 0;
      if data.KVData.Len() > 0 {
        var ok := consul.RestoreKeys(data.KVData.Elems());
        if !ok { errorCount := errorCount + 1; }
      }
      if data.PQData.Len() > 0 {
        var ok := consul.RestorePQs(data.PQData.Elems());
        if !ok { errorCount := errorCount + 1; }
      }
      if data.ACLData.Len() > 0 {
        var ok := consul.RestoreACLs(data.ACLData.Elems());
        if !ok { errorCount := errorCount + 1; }
      }
    }

    // Failed removals are only logged.
    method Cleanup(data: RestoreData)
      modifies env
      ensures env.w == CleanupSpec(env.sys, old(env.w), data.View())
    {
      if data.LocalPath != "" {
        var _ := env.RemoveFile(data.LocalPath);
      }
      if data.ExtractedPath != "" {
        var _ := env.RemoveTree(data.ExtractedPath);
      }
    }

    // The body between registering the deferred cleanup and returning.
    method Load(data: RestoreData) returns (r: Outcome)
      modifies env, data
      ensures (env.w, data.View(), r) == LoadSpec(env.sys, old(env.w), old(data.View()))
    {
      var ok := ExtractBackup(data);
      if !ok { return Stopped(Extracting); }
      ok := LoadMetadata(data);
      if !ok { return Stopped(Inspecting); }
      ok := LoadBackupData(data);
      if !ok { return Stopped(Loading); }
      return Completed;
    }

    // Cleanup is deferred: it runs on every path below the download and sees
    // the extracted path that is only set after it was registered.
    method RunRestore(restorePath: string) returns (r: Outcome)
      modifies env
      ensures (env.w, r) == RunRestoreSpec(env.sys, old(env.w), config, restorePath)
    {
      var data := DownloadBackup(restorePath);
      if data == null { return Stopped(Downloading); }
      r := Load(data);
      if r == Completed {
        var errors := RestoreToConsul(data);
        if errors > 0 { r := Stopped(Replaying(errors)); }
      }
      Cleanup(data);
    }
  }
}
