/** What a legacy restore does to Consul, wherever it stops. */
module LegacyRestoreFacts {
  import opened Wrappers
  import opened Paths
  import opened Names
  import opened Records
  import opened Metadata
  import opened World
  import opened Config
  import opened ConsulClient
  import opened Snapshots
  import opened LegacyRestore
  import Crypt
  import RestoreFacts

  // ---- Load before write ----

  lemma WriteFrame(s: Sys, w: World, p: Path, data: string)
    ensures Outside(w, WriteAt(s, w, p, data).0)
  {}

  lemma FetchFrame(s: Sys, w: World, cfg: Config, path: string, local: string)
    ensures Outside(w, FetchSpec(s, w, cfg, path, local).0)
  {}

  lemma RemoteFrame(s: Sys, w: World, cfg: Config, d: Draft)
    ensures Outside(w, RemoteSpec(s, w, cfg, d).0)
  {
    var local := LocalPath(cfg, d.restorePath);
    var m := Mkdir(s, w, Dir(local));
    WriteFrame(s, m.0, Resolve(s.cwd, local), "");
    FetchFrame(s, Write(s, m.0, local, "").0, cfg, d.restorePath, local);
  }

  lemma DecryptFrame(s: Sys, w: World, cfg: Config, d: Draft)
    ensures Outside(w, DecryptStepSpec(s, w, cfg, d).0)
  {
    var e := Crypt.CheckEncryptionSpec(s, w, d.localFilePath);
    var r := Crypt.DecryptSpec(s, e.0, d.localFilePath, cfg.encryption);
    assert Outside(e.0, r.0);
  }

  lemma ReadFamilyFrame(s: Sys, w: World, d: Draft, f: Family)
    ensures var r := ReadFamilySpec(s, w, d, f); Outside(w, r.0) && r.0.fs == w.fs
  {}

  lemma LoadKVFrame(s: Sys, w: World, d: Draft)
    ensures Outside(w, LoadKVSpec(s, w, d).0)
  {
    ReadFamilyFrame(s, w, d, KV);
  }

  lemma LoadPQFrame(s: Sys, w: World, d: Draft)
    ensures Outside(w, LoadPQSpec(s, w, d).0)
  {
    ReadFamilyFrame(s, w, d, PQ);
  }

  lemma LoadACLFrame(s: Sys, w: World, d: Draft)
    ensures Outside(w, LoadACLSpec(s, w, d).0)
  {
    ReadFamilyFrame(s, w, d, ACL);
  }

  lemma LoadDataFrame(s: Sys, w: World, d: Draft)
    ensures Outside(w, LoadDataSpec(s, w, d).0)
  {
    LoadKVFrame(s, w, d);
    var k := LoadKVSpec(s, w, d);
    LoadPQFrame(s, k.0, k.1);
    var p := LoadPQSpec(s, k.0, k.1);
    LoadACLFrame(s, p.0, p.1);
  }

  lemma ParseV1Frame(s: Sys, w: World, d: Draft)
    ensures Outside(w, ParseV1Spec(s, w, d).0)
  {}

  lemma InspectFrame(s: Sys, w: World, d: Draft)
    ensures Outside(w, InspectSpec(s, w, d).0)
  {
    var d1 := d.(extractedPath := StripSuffixes(d.localFilePath));
    var r := Read(s, w, Join(d1.extractedPath, META));
    ParseV1Frame(s, r.0, d1);
    DescribeFrame(s, w, d, d1, r);
  }

  lemma DescribeFrame(s: Sys, w: World, d: Draft, d1: Draft, r: (World, Option<string>))
    requires d1 == d.(extractedPath := StripSuffixes(d.localFilePath)) && r == Read(s, w, Join(d1.extractedPath, META))
    requires Outside(w, r.0) && Outside(r.0, ParseV1Spec(s, r.0, d1).0)
    ensures Outside(w, InspectSpec(s, w, d).0)
  {
    if r.1.Some? {
      DescribeOnly(r.0, d1, UnmarshalLegacyMeta(r.1.value));
    }
  }

  lemma DescribeOnly(w: World, d: Draft, meta: Option<Meta>)
    ensures Outside(w, DescribeSpec(w, d, meta).0)
  {}

  lemma InspectAndLoadFrame(s: Sys, w: World, d: Draft)
    ensures Outside(w, InspectAndLoadSpec(s, w, d).0)
  {
    InspectFrame(s, w, d);
    var i := InspectSpec(s, w, d);
    LoadDataFrame(s, i.0, i.1);
  }

  lemma UnpackFrame(s: Sys, w: World, d: Draft)
    ensures Outside(w, UnpackSpec(s, w, d).0)
  {
    RestoreFacts.UnTarGzFrame(s, w, d.localFilePath, Dir(d.localFilePath));
    InspectAndLoadFrame(s, ExtractSpec(s, w, d).0, d);
  }

  lemma OpenFrame(s: Sys, w: World, cfg: Config, d: Draft)
    ensures Outside(w, OpenSpec(s, w, cfg, d).0)
  {
    DecryptFrame(s, w, cfg, d);
    UnpackFrame(s, DecryptStepSpec(s, w, cfg, d).0, d);
  }

  lemma LoadFrame(s: Sys, w: World, cfg: Config, path: string)
    ensures Outside(w, LoadSpec(s, w, cfg, path).0)
  {
    RemoteFrame(s, w, cfg, NewDraft(path));
    var l := LocateSpec(s, w, cfg, NewDraft(path));
    OpenFrame(s, l.0, cfg, l.1);
  }

  // ---- What has been loaded ----

  lemma ReadFamilyFrom(s: Sys, w: World, d: Draft, f: Family)
    ensures var r := ReadFamilySpec(s, w, d, f); var p := Resolve(s.cwd, d.extractedPath) + [DataName(f, d.start)];
            r.0.fs == w.fs && (r.1.Some? ==> FileAt(w.fs, p, r.1.value))
  {
    DataNameSimple(f, d.start);
    ResolveJoin(s.cwd, d.extractedPath, DataName(f, d.start));
  }

  // The draft's lists are what its three data files decode to.
  ghost predicate OnDisk(s: Sys, fs: Fs, d: Draft) {
    var p := Resolve(s.cwd, d.extractedPath);
    && p + [DataName(KV, d.start)] in fs.files
    && UnmarshalKVs(fs.files[p + [DataName(KV, d.start)]]) == Some(d.jsonData)
    && p + [DataName(PQ, d.start)] in fs.files
    && UnmarshalPQs(fs.files[p + [DataName(PQ, d.start)]]) == Some(d.pqData)
    && p + [DataName(ACL, d.start)] in fs.files
    && UnmarshalACLs(fs.files[p + [DataName(ACL, d.start)]]) == Some(d.aclData)
  }

  // Under any schedule: loading comes to its end only if the version is "0.0.1" or
  // all three files were read and parsed.
  lemma LoadedIsOnDisk(s: Sys, w: World, d: Draft)
    ensures var r := LoadDataSpec(s, w, d); r.2 ==> r.1.version == V1 || OnDisk(s, w.fs, r.1)
  {
    if d.version != V1 {
      ReadFamilyFrom(s, w, d, KV);
      var k := LoadKVSpec(s, w, d);
      if k.2 {
        ReadFamilyFrom(s, k.0, k.1, PQ);
        var p := LoadPQSpec(s, k.0, k.1);
        if p.2 {
          ReadFamilyFrom(s, p.0, p.1, ACL);
        }
      }
    }
  }

  // ---- Replaying the keys ----

  // The pairs whose calls, numbered from `from` on, go through.
  function Landing(s: Sys, from: nat, kvs: seq<KVPair>): (done: seq<KVPair>)
    ensures |done| <= |kvs|
    decreases |kvs|
  {
    if kvs == [] || s.fault(from).Crash? then []
    else (if s.fault(from).Fine? then [kvs[0]] else []) + Landing(s, from + 1, kvs[1..])
  }

  function Done(s: Sys, w: World, kvs: seq<KVPair>): (done: seq<KVPair>)
    ensures |done| <= |kvs|
  {
    if w.alive then Landing(s, w.calls, kvs) else []
  }

  lemma DoneFirst(s: Sys, w: World, kvs: seq<KVPair>)
    requires kvs != []
    ensures var a := PutKV(s, w, kvs[0].key, ValueBytes(kvs[0].value)); var rest := Done(s, a.0, kvs[1..]);
            Done(s, w, kvs) == if a.1 then [kvs[0]] + rest else rest
  {
    var rest := Landing(s, w.calls + 1, kvs[1..]);
    assert [] + rest == rest;
  }

  // The store ends with the pairs that went through laid over it, and the errors
  // count the others.
  lemma {:induction false} RestoreKVMeaning(s: Sys, w: World, kvs: seq<KVPair>)
    ensures var r := RestoreKVSpec(s, w, kvs);
            && r.0.consul == w.consul.(kv := Overlay(w.consul.kv, Done(s, w, kvs)))
            && r.1 == |kvs| - |Done(s, w, kvs)|
    decreases |kvs|
  {
    if kvs != [] {
      var a := PutKV(s, w, kvs[0].key, ValueBytes(kvs[0].value));
      RestoreKVMeaning(s, a.0, kvs[1..]);
      DoneFirst(s, w, kvs);
      if a.1 {
        OverlayFirst(w.consul.kv, kvs[0], Done(s, a.0, kvs[1..]));
      }
    }
  }

  // The same, pair by pair and byte by byte.
  lemma RestoreKVLaid(s: Sys, w: World, kvs: seq<KVPair>)
    ensures var r := RestoreKVSpec(s, w, kvs);
            && LaidOver(w.consul.kv, r.0.consul.kv, Done(s, w, kvs)) && r.1 == |kvs| - |Done(s, w, kvs)|
            && r.0.consul.pqs == w.consul.pqs && r.0.consul.acls == w.consul.acls
  {
    RestoreKVMeaning(s, w, kvs);
    OverlayIsLaid(w.consul.kv, Done(s, w, kvs));
  }

  // Every pair is attempted, whatever failed before it.
  lemma {:induction false} RestoreKVAttempts(s: Sys, w: World, kvs: seq<KVPair>)
    ensures var r := RestoreKVSpec(s, w, kvs).0;
            && r.objects == w.objects && r.fs == w.fs
            && (r.alive ==> w.alive && r.calls == w.calls + |kvs|)
    decreases |kvs|
  {
    if kvs != [] {
      RestoreKVAttempts(s, PutKV(s, w, kvs[0].key, ValueBytes(kvs[0].value)).0, kvs[1..]);
    }
  }

  lemma {:induction false} LandingAll(s: Sys, from: nat, kvs: seq<KVPair>)
    requires FaultFree(s)
    ensures Landing(s, from, kvs) == kvs
    decreases |kvs|
  {
    if kvs != [] {
      LandingAll(s, from + 1, kvs[1..]);
      assert kvs == [kvs[0]] + kvs[1..];
    }
  }

  // Replaying again, with nothing failing, changes nothing more.
  lemma SecondReplay(s: Sys, w: World, kvs: seq<KVPair>)
    requires FaultFree(s) && w.alive
    ensures var r := RestoreKVSpec(s, w, kvs); var r' := RestoreKVSpec(s, r.0, kvs);
            r.1 == 0 && r'.1 == 0 && r'.0.consul == r.0.consul
  {
    var r := RestoreKVSpec(s, w, kvs);
    RestoreKVMeaning(s, w, kvs);
    RestoreKVAlive(s, w, kvs);
    RestoreKVMeaning(s, r.0, kvs);
    LandingAll(s, w.calls, kvs);
    LandingAll(s, r.0.calls, kvs);
    OverlayIdempotent(w.consul.kv, kvs);
  }

  lemma {:induction false} RestoreKVAlive(s: Sys, w: World, kvs: seq<KVPair>)
    requires FaultFree(s) && w.alive
    ensures RestoreKVSpec(s, w, kvs).0.alive
    decreases |kvs|
  {
    if kvs != [] {
      RestoreKVAlive(s, PutKV(s, w, kvs[0].key, ValueBytes(kvs[0].value)).0, kvs[1..]);
    }
  }

  // What follows loading: nothing unless all three lists were loaded.
  ghost predicate Replayed(s: Sys, before: World, w: World, kvs: seq<KVPair>, ok: bool, r: (World, Option<Counts>)) {
    && r.0.objects == before.objects
    && r.1 == (if ok then Some(Counts(|kvs|, |kvs| - |Done(s, w, kvs)|)) else None)
    && r.0.consul == (if ok then before.consul.(kv := Overlay(before.consul.kv, Done(s, w, kvs))) else before.consul)
  }

  lemma ReplayMeaning(s: Sys, before: World, w: World, d: Draft, ok: bool)
    requires Outside(before, w)
    ensures Replayed(s, before, w, d.jsonData.Elems(), ok, ReplaySpec(s, w, d, ok))
  {
    RestoreKVMeaning(s, w, d.jsonData.Elems());
    RestoreKVAttempts(s, w, d.jsonData.Elems());
  }

  // Under any schedule: Consul is not written unless loading came to its end (see
  // LoadedIsOnDisk), and then only its keys are.
  lemma DoWorkMeaning(s: Sys, w: World, cfg: Config, path: string)
    ensures var l := LoadSpec(s, w, cfg, path);
            Replayed(s, w, l.0, l.1.jsonData.Elems(), l.2, DoWorkSpec(s, w, cfg, path))
  {
    LoadFrame(s, w, cfg, path);
    var l := LoadSpec(s, w, cfg, path);
    ReplayMeaning(s, w, l.0, l.1, l.2);
  }

  // ---- Encrypted archives ----

  // The file holds a container that the configured passphrase does not open.
  predicate Locked(s: Sys, fs: Fs, p: Path, pass: string, salt: string, nonce: string, sealed: string) {
    && |salt| == Crypt.SALT_LEN && |nonce| == Crypt.NONCE_LEN
    && FileAt(fs, p, Crypt.PREFIX + salt + nonce + sealed)
    && s.open(s.kdf(pass, salt), nonce, sealed) == None
  }

  lemma LockedDecrypt(s: Sys, w: World, cfg: Config, d: Draft, p: Path, salt: string, nonce: string, sealed: string)
    requires p == Resolve(s.cwd, d.localFilePath) && Locked(s, w.fs, p, cfg.encryption, salt, nonce, sealed)
    ensures DecryptStepSpec(s, w, cfg, d).0.fs == w.fs
  {
    var e := Crypt.CheckEncryptionSpec(s, w, d.localFilePath);
    Crypt.WrongPassphraseKeepsFile(s, e.0, d.localFilePath, cfg.encryption, salt, nonce, sealed);
  }

  lemma ContainerIsNoGzip(s: Sys, salt: string, nonce: string, sealed: string)
    requires Lawful(s)
    ensures s.gunzip(Crypt.PREFIX + salt + nonce + sealed) == None
  {
    var c := Crypt.PREFIX + salt + nonce + sealed;
    assert c[0] == 'v';
  }

  // Under a wrong passphrase, and under any schedule, the dropped error leaves
  // the container as it was, unpacking it ends the process, and nothing outside
  // has changed.
  lemma LockedStaysOut(s: Sys, w: World, cfg: Config, d: Draft, p: Path, salt: string, nonce: string, sealed: string)
    requires Lawful(s)
    requires p == Resolve(s.cwd, d.localFilePath) && Locked(s, w.fs, p, cfg.encryption, salt, nonce, sealed)
    ensures var r := OpenSpec(s, w, cfg, d); !r.2 && !r.0.alive && r.0.fs == w.fs && Outside(w, r.0)
  {
    LockedDecrypt(s, w, cfg, d, p, salt, nonce, sealed);
    OpenFrame(s, w, cfg, d);
    ContainerIsNoGzip(s, salt, nonce, sealed);
    var e := DecryptStepSpec(s, w, cfg, d);
    if e.1 {
      LockedExtract(s, e.0, d, p, salt, nonce, sealed);
    } else {
      DecryptStopsDead(s, w, cfg, d);
    }
  }

  lemma LockedExtract(s: Sys, w: World, d: Draft, p: Path, salt: string, nonce: string, sealed: string)
    requires p == Resolve(s.cwd, d.localFilePath) && FileAt(w.fs, p, Crypt.PREFIX + salt + nonce + sealed)
    requires s.gunzip(Crypt.PREFIX + salt + nonce + sealed) == None
    ensures var r := ExtractSpec(s, w, d); !r.1 && !r.0.alive && r.0.fs == w.fs
  {}

  lemma DecryptStopsDead(s: Sys, w: World, cfg: Config, d: Draft)
    ensures !DecryptStepSpec(s, w, cfg, d).1 ==> !DecryptStepSpec(s, w, cfg, d).0.alive
  {}

  // Under the right one the archive takes the container's place.
  lemma UnlockedDecrypt(s: Sys, w: World, cfg: Config, d: Draft, p: Path, salt: string, nonce: string, text: string)
    requires FaultFree(s) && Sealing(s) && w.alive && cfg.encryption != "" && CanWrite(w.fs, p)
    requires |salt| == Crypt.SALT_LEN && |nonce| == Crypt.NONCE_LEN
    requires p == Resolve(s.cwd, d.localFilePath)
    requires FileAt(w.fs, p, Crypt.Container(s, cfg.encryption, salt, nonce, text))
    ensures var r := DecryptStepSpec(s, w, cfg, d); r.1 && r.0.alive && r.0.fs == Put(w.fs, p, text)
  {
    Crypt.ContainerParts(s, cfg.encryption, salt, nonce, text);
  }

  lemma PlainDecrypt(s: Sys, w: World, cfg: Config, d: Draft, p: Path, b: string)
    requires FaultFree(s) && Lawful(s) && w.alive
    requires p == Resolve(s.cwd, d.localFilePath) && FileAt(w.fs, p, b) && s.gunzip(b).Some?
    ensures DecryptStepSpec(s, w, cfg, d) == (Next(s, w), true)
  {
    Crypt.GzipIsNoContainer(s, b);
  }
}
