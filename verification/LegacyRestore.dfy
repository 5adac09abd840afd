/**
 restore/restore.go: fetch an archive, decrypt it if need be, unpack it beside
 itself, read the metadata, load the three lists, replay the keys. Nearly every
 failure ends the process; a false result means that it has ended.
 */
module LegacyRestore {
  import opened Wrappers
  import opened Paths
  import opened Names
  import opened Records
  import opened Metadata
  import opened World
  import opened Env
  import opened Config
  import opened ConsulClient
  import Archiver
  import Crypt

  // The version given to backups without metadata.
  const V1 := "0.0.1"

  // The fields of a Restore.
  datatype Draft = Draft(
    restorePath: string, localFilePath: string, extractedPath: string, version: string, start: int,
    jsonData: Slice<KVPair>, pqData: Slice<PreparedQuery>, aclData: Slice<ACLEntry>)

  function NewDraft(path: string): Draft { Draft(path, "", "", "", 0, Nil, Nil, Nil) }

  // ---- What each step does ----

  // The rest of a stream; an error while reading it is dropped.
  function ReadRest(s: Sys, w: World, data: string): (World, string) {
    (Next(s, w),
     if Up(s, w) then data
     else if Tears(s, w) then data[..Part(s, w, |data|)]
     else "")
  }

  // From S3, straight into the file, if no GCS bucket is named; else from GCS.
  function FetchSpec(s: Sys, w: World, cfg: Config, path: string, local: string): (World, bool) {
    if |cfg.gcsBucket| < 1 then Fetch(s, w, Bucket(S3, cfg.s3Bucket), path, local)
    else
      var r := Download(s, w, Bucket(GCS, cfg.gcsBucket), path);
      if r.1.None? then (r.0, false)
      else
        var c := ReadRest(s, r.0, r.1.value);
        Write(s, c.0, local, c.1)
  }

  function LocalPath(cfg: Config, path: string): string { cfg.tmpDir + "/" + path }

  function RemoteSpec(s: Sys, w: World, cfg: Config, d: Draft): (World, Draft, bool) {
    var d1 := d.(localFilePath := LocalPath(cfg, d.restorePath));
    var m := Mkdir(s, w, Dir(d1.localFilePath));
    if !m.1 then (Halt(m.0), d1, false)
    else
      var a := Write(s, m.0, d1.localFilePath, "");
      if !a.1 then (Halt(a.0), d1, false)
      else
        var r := FetchSpec(s, a.0, cfg, d.restorePath, d1.localFilePath);
        if r.1 then (r.0, d1, true) else (Halt(r.0), d1, false)
  }

  function LocateSpec(s: Sys, w: World, cfg: Config, d: Draft): (World, Draft, bool) {
    if cfg.acceptance then (w, d.(localFilePath := LocalPath(cfg, ACCEPTANCE + TAR_GZ)), true)
    else RemoteSpec(s, w, cfg, d)
  }

  // The error of a failed decryption is dropped.
  function DecryptStepSpec(s: Sys, w: World, cfg: Config, d: Draft): (World, bool) {
    var e := Crypt.CheckEncryptionSpec(s, w, d.localFilePath);
    if e.1.None? then (Halt(e.0), false)
    else if !e.1.value then (e.0, true)
    else if cfg.encryption == "" then (Halt(e.0), false)
    else
      var r := Crypt.DecryptSpec(s, e.0, d.localFilePath, cfg.encryption);
      (r.0, !r.1.Panicked?)
  }

  function ExtractSpec(s: Sys, w: World, d: Draft): (World, bool) {
    var a := Archiver.UnTarGzSpec(s, w, d.localFilePath, Dir(d.localFilePath));
    if a.1 then a else (Halt(a.0), false)
  }

  // A first-generation backup: gzipped JSON.
  function ParseV1Spec(s: Sys, w: World, d: Draft): (World, Draft, bool) {
    var r := Read(s, w, d.localFilePath);
    if r.1.None? || s.gunzip(r.1.value).None? then (Halt(r.0), d, false)
    else
      match UnmarshalKVs(s.gunzip(r.1.value).value)
      case None => (Halt(r.0), d.(version := V1), false)
      case Some(l) => (r.0, d.(jsonData := l, version := V1), true)
  }

  function DescribeSpec(w: World, d: Draft, meta: Option<Meta>): (World, Draft, bool) {
    match meta
    case None => (Halt(w), d, false)
    case Some(m) => (w, d.(version := m.version, start := m.start), true)
  }

  function InspectSpec(s: Sys, w: World, d: Draft): (World, Draft, bool) {
    var d1 := d.(extractedPath := StripSuffixes(d.localFilePath));
    var r := Read(s, w, Join(d1.extractedPath, META));
    if r.1.None? then ParseV1Spec(s, r.0, d1)
    else DescribeSpec(r.0, d1, UnmarshalLegacyMeta(r.1.value))
  }

  function ReadFamilySpec(s: Sys, w: World, d: Draft, f: Family): (World, Option<string>) {
    Read(s, w, Join(d.extractedPath, DataName(f, d.start)))
  }

  function LoadKVSpec(s: Sys, w: World, d: Draft): (World, Draft, bool) {
    var r := ReadFamilySpec(s, w, d, KV);
    if r.1.None? then (Halt(r.0), d, false)
    else
      match UnmarshalKVs(r.1.value)
      case None => (Halt(r.0), d, false)
      case Some(l) => (r.0, d.(jsonData := l), true)
  }

  function LoadPQSpec(s: Sys, w: World, d: Draft): (World, Draft, bool) {
    var r := ReadFamilySpec(s, w, d, PQ);
    if r.1.None? then (Halt(r.0), d, false)
    else
      match UnmarshalPQs(r.1.value)
      case None => (Halt(r.0), d, false)
      case Some(l) => (r.0, d.(pqData := l), true)
  }

  function LoadACLSpec(s: Sys, w: World, d: Draft): (World, Draft, bool) {
    var r := ReadFamilySpec(s, w, d, ACL);
    if r.1.None? then (Halt(r.0), d, false)
    else
      match UnmarshalACLs(r.1.value)
      case None => (Halt(r.0), d, false)
      case Some(l) => (r.0, d.(aclData := l), true)
  }

  function LoadDataSpec(s: Sys, w: World, d: Draft): (World, Draft, bool) {
    if d.version == V1 then (w, d, true)
    else
      var k := LoadKVSpec(s, w, d);
      if !k.2 then k
      else
        var p := LoadPQSpec(s, k.0, k.1);
        if !p.2 then p else LoadACLSpec(s, p.0, p.1)
  }

  // Every pair is attempted; failures are counted.
  function RestoreKVSpec(s: Sys, w: World, kvs: seq<KVPair>): (World, nat)
    decreases |kvs|
  {
    if kvs == [] then (w, 0)
    else
      var a := PutKV(s, w, kvs[0].key, ValueBytes(kvs[0].value));
      var r := RestoreKVSpec(s, a.0, kvs[1..]);
      (r.0, r.1 + if a.1 then 0 else 1)
  }

  // ---- The run, from each of its steps on, up to the replay ----

  function InspectAndLoadSpec(s: Sys, w: World, d: Draft): (World, Draft, bool) {
    var i := InspectSpec(s, w, d);
    if !i.2 then i else LoadDataSpec(s, i.0, i.1)
  }

  function UnpackSpec(s: Sys, w: World, d: Draft): (World, Draft, bool) {
    var x := ExtractSpec(s, w, d);
    if !x.1 then (x.0, d, false) else InspectAndLoadSpec(s, x.0, d)
  }

  function OpenSpec(s: Sys, w: World, cfg: Config, d: Draft): (World, Draft, bool) {
    var e := DecryptStepSpec(s, w, cfg, d);
    if !e.1 then (e.0, d, false) else UnpackSpec(s, e.0, d)
  }

  function LoadSpec(s: Sys, w: World, cfg: Config, path: string): (World, Draft, bool) {
    var l := LocateSpec(s, w, cfg, NewDraft(path));
    if !l.2 then l else OpenSpec(s, l.0, cfg, l.1)
  }

  // Keys attempted and keys that failed.
  datatype Counts = Counts(restored: nat, errors: nat)

  // Prepared queries and ACLs are loaded but not restored.
  function ReplaySpec(s: Sys, w: World, d: Draft, ok: bool): (World, Option<Counts>) {
    if !ok then (w, None)
    else
      var r := RestoreKVSpec(s, w, d.jsonData.Elems());
      (r.0, Some(Counts(d.jsonData.Len(), r.1)))
  }

  function DoWorkSpec(s: Sys, w: World, cfg: Config, path: string): (World, Option<Counts>) {
    var l := LoadSpec(s, w, cfg, path);
    ReplaySpec(s, l.0, l.1, l.2)
  }

  // ---- The program ----

  class Restore {
    const Config: Config
    const env: Env
    var RestorePath: string
    var LocalFilePath: string
    var Encrypted: bool
    var ExtractedPath: string
    var Version: string
    var MetaStartTime: int
    var JSONData: Slice<KVPair>
    var PQData: Slice<PreparedQuery>
    var ACLData: Slice<ACLEntry>

    constructor (config: Config, env: Env, path: string)
      ensures Config == config && this.env == env && View() == NewDraft(path)
    {
      Config, this.env, RestorePath := config, env, path;
      LocalFilePath, Encrypted, ExtractedPath, Version, MetaStartTime := "", false, "", "", 0;
      JSONData, PQData, ACLData := Nil, Nil, Nil;
    }

    function View(): Draft
      reads this
    {
      Draft(RestorePath, LocalFilePath, ExtractedPath, Version, MetaStartTime, JSONData, PQData, ACLData)
    }

    method Download() returns (ok: bool)
      modifies env
      ensures (env.w, ok) == FetchSpec(env.sys, old(env.w), Config, RestorePath, LocalFilePath)
    {
      if |Config.gcsBucket| < 1 {
        ok := env.FetchObject(Bucket(S3, Config.s3Bucket), RestorePath, LocalFilePath);
      } else {
        var data := env.DownloadObject(Bucket(GCS, Config.gcsBucket), RestorePath);
        if data.None? { return false; }
        var r := ReadRest(env.sys, env.w, data.value);
        env.w := r.0;
        ok := env.WriteFile(LocalFilePath, r.1);
      }
    }

    method GetRemoteBackup() returns (ok: bool)
      modifies this`LocalFilePath, env
      ensures (env.w, View(), ok) == RemoteSpec(env.sys, old(env.w), Config, old(View()))
    {
      LocalFilePath := Config.tmpDir + "/" + RestorePath;
      ok := env.MkdirAll(Dir(LocalFilePath));
      if ok {
        ok := env.WriteFile(LocalFilePath, "");
      }
      if !ok {
        env.Fatal();
        return;
      }
      ok := Download();
      if !ok { env.Fatal(); }
    }

    method Decrypt() returns (ok: bool)
      modifies this`Encrypted, env
      ensures (env.w, ok) == DecryptStepSpec(env.sys, old(env.w), Config, old(View()))
      ensures View() == old(View())
    {
      var encrypted := Crypt.CheckEncryption(env, LocalFilePath);
      if encrypted.None? {
        env.Fatal();
        return false;
      }
      Encrypted := encrypted.value;
      if Encrypted {
        if Config.encryption == "" {
          env.Fatal();
          return false;
        }
        var r := Crypt.DecryptFile(env, LocalFilePath, Config.encryption);
        return !r.Panicked?;
      }
      return true;
    }

    method ExtractBackup() returns (ok: bool)
      modifies env
      ensures (env.w, ok) == ExtractSpec(env.sys, old(env.w), View())
    {
      ok := Archiver.UnTarGz(env, LocalFilePath, Dir(LocalFilePath));
      if !ok { env.Fatal(); }
    }

    method ParseV1Data() returns (ok: bool)
      modifies this`JSONData, this`Version, env
      ensures (env.w, View(), ok) == ParseV1Spec(env.sys, old(env.w), old(View()))
    {
      var data := env.ReadFile(LocalFilePath);
      if data.None? || env.sys.gunzip(data.value).None? {
        env.Fatal();
        return false;
      }
      Version := V1;
      var kvpairs := UnmarshalKVs(env.sys.gunzip(data.value).value);
      if kvpairs.None? {
        env.Fatal();
        return false;
      }
      JSONData := kvpairs.value;
      return true;
    }

    method InspectBackup() returns (ok: bool)
      modifies this`ExtractedPath, this`JSONData, this`Version, this`MetaStartTime, env
      ensures (env.w, View(), ok) == InspectSpec(env.sys, old(env.w), old(View()))
    {
      ExtractedPath := StripSuffixes(LocalFilePath);
      var metaData := env.ReadFile(Join(ExtractedPath, META));
      if metaData.None? {
        ok := ParseV1Data();
        return;
      }
      ok := Describe(UnmarshalLegacyMeta(metaData.value));
    }

    method Describe(meta: Option<Meta>) returns (ok: bool)
      modifies this`Version, this`MetaStartTime, env
      ensures (env.w, View(), ok) == DescribeSpec(old(env.w), old(View()), meta)
    {
      if meta.None? {
        env.Fatal();
        return false;
      }
      Version := meta.value.version;
      MetaStartTime := meta.value.start;
      return true;
    }

    method LoadKVData() returns (ok: bool)
      modifies this`JSONData, env
      ensures (env.w, View(), ok) == LoadKVSpec(env.sys, old(env.w), old(View()))
    {
      var data := env.ReadFile(Join(ExtractedPath, DataName(KV, MetaStartTime)));
      if data.None? { env.Fatal(); return false; }
      var l := UnmarshalKVs(data.value);
      if l.None? { env.Fatal(); return false; }
      JSONData := l.value;
      return true;
    }

    method LoadPQData() returns (ok: bool)
      modifies this`PQData, env
      ensures (env.w, View(), ok) == LoadPQSpec(env.sys, old(env.w), old(View()))
    {
      var data := env.ReadFile(Join(ExtractedPath, DataName(PQ, MetaStartTime)));
      if data.None? { env.Fatal(); return false; }
      var l := UnmarshalPQs(data.value);
      if l.None? { env.Fatal(); return false; }
      PQData := l.value;
      return true;
    }

    method LoadACLData() returns (ok: bool)
      modifies this`ACLData, env
      ensures (env.w, View(), ok) == LoadACLSpec(env.sys, old(env.w), old(View()))
    {
      var data := env.ReadFile(Join(ExtractedPath, DataName(ACL, MetaStartTime)));
      if data.None? { env.Fatal(); return false; }
      var l := UnmarshalACLs(data.value);
      if l.None? { env.Fatal(); return false; }
      ACLData := l.value;
      return true;
    }

    method LoadData() returns (ok: bool)
      modifies this`JSONData, this`PQData, this`ACLData, env
      ensures (env.w, View(), ok) == LoadDataSpec(env.sys, old(env.w), old(View()))
    {
      ok := true;
      if Version != V1 {
        ok := LoadKVData();
        if !ok { return; }
        ok := LoadPQData();
        if !ok { return; }
        ok := LoadACLData();
      }
    }

    // From the downloaded archive to the loaded lists.
    method Open() returns (ok: bool)
      modifies this, env
      ensures (env.w, View(), ok) == OpenSpec(env.sys, old(env.w), Config, old(View()))
    {
      ok := Decrypt();
      if !ok { return; }
      ok := ExtractBackup();
      if !ok { return; }
      ok := InspectBackup();
      if !ok { return; }
      ok := LoadData();
    }

    method RestoreKV() returns (counts: Counts)
      modifies env
      ensures var r := RestoreKVSpec(env.sys, old(env.w), JSONData.Elems());
              env.w == r.0 && counts == Counts(JSONData.Len(), r.1)
    {
      var kvs := JSONData.Elems();
      ghost var all := RestoreKVSpec(env.sys, env.w, kvs);
      var restoredKeyCount, errorCount := 0, 0;
      for i := 0 to |kvs|
        invariant restoredKeyCount == i
        invariant all.0 == RestoreKVSpec(env.sys, env.w, kvs[i..]).0
        invariant all.1 == errorCount + RestoreKVSpec(env.sys, env.w, kvs[i..]).1
      {
        var ok := env.PutKey(kvs[i].key, ValueBytes(kvs[i].value));
        if !ok {
          errorCount := errorCount + 1;
        }
        restoredKeyCount := restoredKeyCount + 1;
        assert kvs[i..][1..] == kvs[i + 1..];
      }
      return Counts(restoredKeyCount, errorCount);
    }
  }

  method DoWork(conf: Config, env: Env, restorePath: string) returns (counts: Option<Counts>)
    modifies env
    ensures (env.w, counts) == DoWorkSpec(env.sys, old(env.w), conf, restorePath)
  {
    var restore := new Restore(conf, env, restorePath);
    var ok := true;
    if conf.acceptance {
      restore.LocalFilePath := LocalPath(conf, ACCEPTANCE + TAR_GZ);
    } else {
      ok := restore.GetRemoteBackup();
    }
    if !ok { return None; }
    ok := restore.Open();
    if !ok { return None; }
    var c := restore.RestoreKV();
    return Some(c);
  }
}
