/**
 backup/backup.go: the daemon's backup. Listing errors are ignored, so a run
 writes down whatever the shared client last listed; most other failures end the
 process.
 */
module LegacyBackup {
  import opened Wrappers
  import opened Decimal
  import opened Paths
  import opened Names
  import opened Base64
  import opened Records
  import opened Metadata
  import opened World
  import opened Env
  import opened Config
  import opened ConsulClient
  import Archiver
  import Crypt

  const ACK_KEY := "service/consul-snapshot/lastbackup"

  // The fields of a Backup.
  datatype Draft = Draft(
    startTime: int64, kvJson: string, pqJson: string, aclJson: string, localFilePath: string,
    kvSum: string, pqSum: string, aclSum: string, fullFilename: string, remoteFilePath: string)
  {
    function Json(f: Family): string {
      match f
      case KV => kvJson
      case PQ => pqJson
      case ACL => aclJson
    }

    function Summed(f: Family, sum: string): Draft {
      match f
      case KV => this.(kvSum := sum)
      case PQ => this.(pqSum := sum)
      case ACL => this.(aclSum := sum)
    }
  }

  function NewDraft(start: int64): Draft { Draft(start, "", "", "", "", "", "", "", "", "") }

  function FormatBytes(n: int): Bytes {
    FormatChars(n);
    assert forall i :: 0 <= i < |Format(n)| ==> Format(n)[i] in Format(n);
    Format(n)
  }

  // What the clock, the agent and the random source supply to one run.
  datatype Tick = Tick(start: int64, end: int64, node: string, salt: string, nonce: string)

  // ---- What each step does; a false result means that the run is over ----

  function CollectSpec(s: Sys, w: World, c: Client, start: int64): (World, Client, Draft) {
    var k := ListKeysSpec(s, w, c);
    var p := ListPQsSpec(s, k.0, k.1);
    var a := ListACLsSpec(s, p.0, p.1);
    (a.0, a.1, NewDraft(start).(kvJson := MarshalKVs(k.1.keys), pqJson := MarshalPQs(p.1.pqs),
      aclJson := MarshalACLs(a.1.acls)))
  }

  // The staging directory and, with a suffix, the archive beside it.
  function StageBase(cfg: Config, start: int): string {
    if cfg.acceptance then ACCEPTANCE else StageName(cfg.hostname, start)
  }

  function StageDir(cfg: Config, start: int): string { Join(cfg.tmpDir, StageBase(cfg, start)) }

  function PreProcessSpec(s: Sys, w: World, cfg: Config, d: Draft): (World, Draft, bool) {
    var m := Mkdir(s, w, StageDir(cfg, d.startTime));
    if !m.1 then (Halt(m.0), d, false)
    else (m.0, d.(localFilePath := StageDir(cfg, d.startTime)), true)
  }

  // Write a file, and take the checksum of what is then on disk.
  function WriteFamilySpec(s: Sys, w: World, d: Draft, f: Family): (World, Draft, bool) {
    var path := Join(d.localFilePath, DataName(f, d.startTime));
    var a := Write(s, w, path, d.Json(f));
    if !a.1 then (a.0, d, false)
    else
      var r := Read(s, a.0, path);
      if r.1.None? then (r.0, d, false) else (r.0, d.Summed(f, s.sha256(r.1.value)), true)
  }

  function WriteDataSpec(s: Sys, w: World, d: Draft): (World, Draft, bool) {
    var k := WriteFamilySpec(s, w, d, KV);
    if !k.2 then k
    else
      var p := WriteFamilySpec(s, k.0, k.1, PQ);
      if !p.2 then p else WriteFamilySpec(s, p.0, p.1, ACL)
  }

  function MetaOf(cfg: Config, d: Draft, t: Tick): Meta {
    Meta(d.aclSum, cfg.version, t.end, d.kvSum, t.node, d.pqSum, d.startTime)
  }

  function WriteMetaSpec(s: Sys, w: World, cfg: Config, d: Draft, t: Tick): (World, bool) {
    var a := Write(s, w, Join(d.localFilePath, META), MarshalMeta(LEGACY, MetaOf(cfg, d, t)));
    if a.1 then a else (Halt(a.0), false)
  }

  function ArchivePath(cfg: Config, start: int): string { Join(cfg.tmpDir, StageBase(cfg, start) + TAR_GZ) }

  function CompressSpec(s: Sys, w: World, cfg: Config, d: Draft): (World, Draft, bool) {
    var path := ArchivePath(cfg, d.startTime);
    var a := Archiver.TarGzSpec(s, Remove(s, w, path).0, path, d.localFilePath);
    if a.1 then (a.0, d.(fullFilename := path), true) else (Halt(a.0), d.(fullFilename := path), false)
  }

  // The error, if any, is dropped.
  function EncryptStepSpec(s: Sys, w: World, cfg: Config, d: Draft, t: Tick): World {
    if cfg.encryption == "" then w
    else Crypt.EncryptSpec(s, w, d.localFilePath, cfg.encryption, t.salt, t.nonce).0
  }

  function RemotePath(s: Sys, cfg: Config, start: int, full: string): string {
    ObjectKey(cfg.objectPrefix, s.date(start), Base(full))
  }

  // An upload to one store; a bucket name of one character counts as none.
  function UploadSpec(s: Sys, w: World, bucket: Bucket, key: string, data: string): (World, bool) {
    if |bucket.name| <= 1 then (w, true)
    else
      var a := Upload(s, w, bucket, key, data);
      if a.1 then a else (Halt(a.0), false)
  }

  function RemoteSpec(s: Sys, w: World, cfg: Config, d: Draft): (World, Draft, bool) {
    var d1 := d.(remoteFilePath := RemotePath(s, cfg, d.startTime, d.fullFilename));
    var r := Read(s, w, d.fullFilename);
    if r.1.None? then (Halt(r.0), d1, false)
    else
      var a := UploadSpec(s, r.0, Bucket(S3, cfg.s3Bucket), d1.remoteFilePath, r.1.value);
      if !a.1 then (a.0, d1, false)
      else
        var b := UploadSpec(s, a.0, Bucket(GCS, cfg.gcsBucket), d1.remoteFilePath, r.1.value);
        (b.0, d1, b.1)
  }

  // Failed removals are only logged.
  function PostProcessSpec(s: Sys, w: World, d: Draft): (World, bool) {
    var a := PutKV(s, w, ACK_KEY, FormatBytes(d.startTime));
    if !a.1 then (Halt(a.0), false)
    else (RemoveAll(s, Remove(s, a.0, d.fullFilename).0, d.localFilePath).0, true)
  }

  // ---- The run, from each of its last steps on ----

  function DeliverSpec(s: Sys, w: World, cfg: Config, d: Draft): (World, bool) {
    if cfg.acceptance then (w, true)
    else
      var r := RemoteSpec(s, w, cfg, d);
      if !r.2 then (r.0, false) else PostProcessSpec(s, r.0, r.1)
  }

  function PackSpec(s: Sys, w: World, cfg: Config, d: Draft, t: Tick): (World, bool) {
    var m := WriteMetaSpec(s, w, cfg, d, t);
    if !m.1 then m
    else
      var p := CompressSpec(s, m.0, cfg, d);
      if !p.2 then (p.0, false)
      else DeliverSpec(s, EncryptStepSpec(s, p.0, cfg, p.1, t), cfg, p.1)
  }

  function StageSpec(s: Sys, w: World, cfg: Config, d: Draft, t: Tick): (World, bool) {
    var m := PreProcessSpec(s, w, cfg, d);
    if !m.2 then (m.0, false)
    else
      var a := WriteDataSpec(s, m.0, m.1);
      if !a.2 then (a.0, false) else PackSpec(s, a.0, cfg, a.1, t)
  }

  function DoWorkSpec(s: Sys, w: World, cfg: Config, c: Client, t: Tick): (World, Client, bool) {
    var l := CollectSpec(s, w, c, t.start);
    var r := StageSpec(s, l.0, cfg, l.2, t);
    (r.0, l.1, r.1)
  }

  // The daemon: a failed run ends the process.
  function RunnerSpec(s: Sys, w: World, cfg: Config, c: Client, ticks: seq<Tick>): (World, Client)
    decreases |ticks|
  {
    if ticks == [] || !w.alive then (w, c)
    else
      var r := DoWorkSpec(s, w, cfg, c, ticks[0]);
      RunnerSpec(s, if r.2 then r.0 else Halt(r.0), cfg, r.1, ticks[1..])
  }

  // ---- The program ----

  class Backup {
    const Config: Config
    const Client: Consul
    const env: Env := Client.env
    var StartTime: int64
    var KVJSONData: string
    var PQJSONData: string
    var ACLJSONData: string
    var LocalFilePath: string
    var LocalKVFileName: string
    var LocalPQFileName: string
    var LocalACLFileName: string
    var KVFileChecksum: string
    var PQFileChecksum: string
    var ACLFileChecksum: string
    var FullFilename: string
    var RemoteFilePath: string

    constructor (config: Config, client: Consul, start: int64)
      ensures Config == config && Client == client && View() == NewDraft(start)
    {
      Config, Client, StartTime := config, client, start;
      KVJSONData, PQJSONData, ACLJSONData := "", "", "";
      LocalFilePath, LocalKVFileName, LocalPQFileName, LocalACLFileName := "", "", "", "";
      KVFileChecksum, PQFileChecksum, ACLFileChecksum := "", "", "";
      FullFilename, RemoteFilePath := "", "";
    }

    function View(): Draft
      reads this
    {
      Draft(StartTime, KVJSONData, PQJSONData, ACLJSONData, LocalFilePath,
            KVFileChecksum, PQFileChecksum, ACLFileChecksum, FullFilename, RemoteFilePath)
    }

    predicate Named()
      reads this
    {
      && LocalKVFileName == DataName(KV, StartTime)
      && LocalPQFileName == DataName(PQ, StartTime)
      && LocalACLFileName == DataName(ACL, StartTime)
    }

    method Collect()
      requires View() == NewDraft(StartTime)
      modifies this, env, Client
      ensures (env.w, Client.View(), View()) == CollectSpec(env.sys, old(env.w), old(Client.View()), old(StartTime))
    {
      var _ := Client.ListKeys();
      KVJSONData := MarshalKVs(Client.KeyData);
      var _ := Client.ListPQs();
      PQJSONData := MarshalPQs(Client.PQData);
      var _ := Client.ListACLs();
      ACLJSONData := MarshalACLs(Client.ACLData);
    }

    method PreProcess() returns (ok: bool)
      modifies this, env
      ensures (env.w, View(), ok) == PreProcessSpec(env.sys, old(env.w), Config, old(View()))
      ensures ok ==> Named()
    {
      var prefix: string;
      if Config.acceptance {
        prefix := ACCEPTANCE;
      } else {
        prefix := StageName(Config.hostname, StartTime);
      }
      var dir := Join(Config.tmpDir, prefix);
      assert dir == StageDir(Config, StartTime);
      ok := env.MkdirAll(dir);
      if !ok {
        env.Fatal();
        return;
      }
      LocalKVFileName := DataName(KV, StartTime);
      LocalPQFileName := DataName(PQ, StartTime);
      LocalACLFileName := DataName(ACL, StartTime);
      LocalFilePath := dir;
    }

    method CalcSha256(path: string) returns (sum: Option<string>)
      modifies env
      ensures var r := Read(env.sys, old(env.w), path);
              env.w == r.0 && sum == if r.1.Some? then Some(env.sys.sha256(r.1.value)) else None
    {
      var data := env.ReadFile(path);
      if data.None? { return None; }
      return Some(env.sys.sha256(data.value));
    }

    method WriteFileLocal(path: string, filename: string, contents: string) returns (ok: bool)
      modifies env
      ensures (env.w, ok) == Write(env.sys, old(env.w), Join(path, filename), contents)
    {
      ok := env.WriteFile(Join(path, filename), contents);
    }

    method WriteKV() returns (ok: bool)
      requires Named()
      modifies this`KVFileChecksum, env
      ensures (env.w, View(), ok) == WriteFamilySpec(env.sys, old(env.w), old(View()), KV)
    {
      ok := WriteFileLocal(LocalFilePath, LocalKVFileName, KVJSONData);
      if !ok { return; }
      var sum := CalcSha256(Join(LocalFilePath, LocalKVFileName));
      if sum.None? { return false; }
      KVFileChecksum := sum.value;
    }

    method WritePQ() returns (ok: bool)
      requires Named()
      modifies this`PQFileChecksum, env
      ensures (env.w, View(), ok) == WriteFamilySpec(env.sys, old(env.w), old(View()), PQ)
    {
      ok := WriteFileLocal(LocalFilePath, LocalPQFileName, PQJSONData);
      if !ok { return; }
      var sum := CalcSha256(Join(LocalFilePath, LocalPQFileName));
      if sum.None? { return false; }
      PQFileChecksum := sum.value;
    }

    method WriteACL() returns (ok: bool)
      requires Named()
      modifies this`ACLFileChecksum, env
      ensures (env.w, View(), ok) == WriteFamilySpec(env.sys, old(env.w), old(View()), ACL)
    {
      ok := WriteFileLocal(LocalFilePath, LocalACLFileName, ACLJSONData);
      if !ok { return; }
      var sum := CalcSha256(Join(LocalFilePath, LocalACLFileName));
      if sum.None? { return false; }
      ACLFileChecksum := sum.value;
    }

    method WriteMetaLocal(t: Tick) returns (ok: bool)
      modifies env
      ensures (env.w, ok) == WriteMetaSpec(env.sys, old(env.w), Config, View(), t)
    {
      var meta := Meta(ACLFileChecksum, Config.version, t.end, KVFileChecksum, t.node, PQFileChecksum, StartTime);
      ok := WriteFileLocal(LocalFilePath, META, MarshalMeta(LEGACY, meta));
      if !ok { env.Fatal(); }
    }

    method CompressStagedBackup() returns (ok: bool)
      modifies this`FullFilename, env
      ensures (env.w, View(), ok) == CompressSpec(env.sys, old(env.w), Config, old(View()))
    {
      var finalfile: string;
      if Config.acceptance {
        finalfile := ACCEPTANCE + TAR_GZ;
      } else {
        finalfile := ArchiveName(Config.hostname, StartTime);
      }
      var finalpath := Join(Config.tmpDir, finalfile);
      FullFilename := finalpath;
      var _ := env.RemoveFile(finalpath);
      ok := Archiver.TarGz(env, finalpath, LocalFilePath);
      if !ok { env.Fatal(); }
    }

    method UploadTo(bucket: Bucket, contents: string) returns (ok: bool)
      modifies env
      ensures (env.w, ok) == UploadSpec(env.sys, old(env.w), bucket, RemoteFilePath, contents)
    {
      ok := true;
      if |bucket.name| > 1 {
        ok := env.UploadObject(bucket, RemoteFilePath, contents);
        if !ok { env.Fatal(); }
      }
    }

    method WriteBackupRemote() returns (ok: bool)
      modifies this`RemoteFilePath, env
      ensures (env.w, View(), ok) == RemoteSpec(env.sys, old(env.w), Config, old(View()))
    {
      RemoteFilePath := ObjectKey(Config.objectPrefix, env.sys.date(StartTime), Base(FullFilename));
      var contents := env.ReadFile(FullFilename);
      if contents.None? {
        env.Fatal();
        return false;
      }
      ok := UploadTo(Bucket(S3, Config.s3Bucket), contents.value);
      if !ok { return; }
      ok := UploadTo(Bucket(GCS, Config.gcsBucket), contents.value);
    }

    method PostProcess() returns (ok: bool)
      modifies env
      ensures (env.w, ok) == PostProcessSpec(env.sys, old(env.w), View())
    {
      ok := env.PutKey(ACK_KEY, FormatBytes(StartTime));
      if !ok {
        env.Fatal();
        return;
      }
      var _ := env.RemoveFile(FullFilename);
      var _ := env.RemoveTree(LocalFilePath);
    }

    // Everything after the listings.
    method Stage(t: Tick) returns (ok: bool)
      modifies this, env
      ensures (env.w, ok) == StageSpec(env.sys, old(env.w), Config, old(View()), t)
    {
      ok := PreProcess();
      if !ok { return; }
      ok := WriteKV();
      if !ok { return; }
      ok := WritePQ();
      if !ok { return; }
      ok := WriteACL();
      if !ok { return; }
      ok := Pack(t);
    }

    method Pack(t: Tick) returns (ok: bool)
      modifies this`FullFilename, this`RemoteFilePath, env
      ensures (env.w, ok) == PackSpec(env.sys, old(env.w), Config, old(View()), t)
    {
      ok := WriteMetaLocal(t);
      if !ok { return; }
      ok := CompressStagedBackup();
      if !ok { return; }
      if Config.encryption != "" {
        var _ := Crypt.EncryptFile(env, LocalFilePath, Config.encryption, t.salt, t.nonce);
      }
      if !Config.acceptance {
        ok := WriteBackupRemote();
        if !ok { return; }
        ok := PostProcess();
      }
    }
  }

  method DoWork(conf: Config, client: Consul, t: Tick) returns (ok: bool)
    modifies client, client.env
    ensures (client.env.w, client.View(), ok) ==
            DoWorkSpec(client.env.sys, old(client.env.w), conf, old(client.View()), t)
  {
    var b := new Backup(conf, client, t.start);
    b.Collect();
    ok := b.Stage(t);
  }

  method Runner(conf: Config, client: Consul, ticks: seq<Tick>)
    modifies client, client.env
    ensures (client.env.w, client.View()) ==
            RunnerSpec(client.env.sys, old(client.env.w), conf, old(client.View()), ticks)
  {
    ghost var all := RunnerSpec(client.env.sys, client.env.w, conf, client.View(), ticks);
    var i := 0;
    while i < |ticks| && client.env.w.alive
      invariant 0 <= i <= |ticks|
      invariant all == RunnerSpec(client.env.sys, client.env.w, conf, client.View(), ticks[i..])
    {
      var ok := DoWork(conf, client, ticks[i]);
      if !ok { client.env.Fatal(); }
      assert ticks[i..][1..] == ticks[i + 1..];
      i := i + 1;
    }
  }
}
