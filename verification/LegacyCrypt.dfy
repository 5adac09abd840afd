/**
 Restoring from a bucket that holds an encrypted container: under its passphrase
 the archive inside is restored; under any other, and whatever fails on the way,
 nothing is.
 */
module LegacyCrypt {
  import opened Wrappers
  import opened Paths
  import opened Text
  import opened Names
  import opened Records
  import opened Metadata
  import opened World
  import opened Config
  import opened Snapshots
  import opened LegacyRestore
  import opened LegacyRestoreFacts
  import opened LegacyTrip
  import Crypt

  // ---- Under the passphrase ----

  // What the disk is once a fetched container is decrypted.
  lemma Uncovered(s: Sys, w: World, q: Path, base: string, data: string, c: Contents, obj: string, fs: Fs)
    requires IsArchive(s, data, [base], c, false)
    requires var at := q + [base + TAR_GZ];
             w.fs == Put(fs, at, obj) && CanWrite(fs, at) && Accepts(Put(fs, at, data), q, Inside(s, data))
    ensures var at := q + [base + TAR_GZ];
            CanWrite(w.fs, at) && FileAt(w.fs, at, obj) && Beside(s, Put(w.fs, at, data), q, base, c)
  {
    var at := q + [base + TAR_GZ];
    assert Put(w.fs, at, data) == Put(fs, at, data);
  }

  // From a bucket whose object is an archive's container to the store.
  lemma RestoreEncrypted(s: Sys, w: World, cfg: Config, key: string, dir: string, base: string, data: string,
                         c: Contents, kvs: Slice<KVPair>, pqs: Slice<PreparedQuery>, acls: Slice<ACLEntry>, m: Meta,
                         salt: string, nonce: string)
    requires Lawful(s) && FaultFree(s) && Sealing(s) && Spelled(cfg, key, dir, base)
    requires ReadyFor(s, w, cfg, key, dir, base, data) && !Contains(dir + "/" + base, GZ)
    requires cfg.encryption != "" && |salt| == Crypt.SALT_LEN && |nonce| == Crypt.NONCE_LEN
    requires w.objects[(BucketOf(cfg), key)] == Crypt.Container(s, cfg.encryption, salt, nonce, data)
    requires IsArchive(s, data, [base], c, false) && Reads(c, kvs, pqs, acls, m)
    ensures Restored(w, DoWorkSpec(s, w, cfg, key), Wanted(m, kvs))
  {
    var l := LocateSpec(s, w, cfg, NewDraft(key));
    var path, obj := dir + "/" + base, w.objects[(BucketOf(cfg), key)];
    LocateObject(s, w, cfg, key, dir, base, path, data, c, obj, l);
    var q := Resolve(s.cwd, dir);
    Uncovered(s, l.0, q, base, data, c, obj, AddDirs(w.fs, q));
    var plain := l.0.(fs := Put(l.0.fs, q + [base + TAR_GZ], data));
    OpenEncrypted(s, l.0, cfg, l.1, dir, base, path, c, kvs, pqs, acls, m, salt, nonce, data, plain);
    LoadRestores(s, w, cfg, key, Wanted(m, kvs), LoadSpec(s, w, cfg, key));
  }

  // ---- Without it ----

  // No front of the sealed text opens under the passphrase.
  ghost predicate Shut(s: Sys, pass: string, salt: string, nonce: string, sealed: string) {
    && |salt| == Crypt.SALT_LEN && |nonce| == Crypt.NONCE_LEN
    && forall k: nat :: k <= |sealed| ==> s.open(s.kdf(pass, salt), nonce, sealed[..k]) == None
  }

  lemma FrontOfContainer(salt: string, nonce: string, sealed: string, f: string) returns (k: nat)
    requires |salt| == Crypt.SALT_LEN && |nonce| == Crypt.NONCE_LEN
    requires f <= Crypt.PREFIX + salt + nonce + sealed && |f| >= Crypt.HEADER_LEN
    ensures k <= |sealed| && f == Crypt.PREFIX + salt + nonce + sealed[..k]
  {
    k := |f| - Crypt.HEADER_LEN;
    assert f == (Crypt.PREFIX + salt + nonce + sealed)[..|f|];
  }

  // A front too short to be cut makes decryption panic; any other stays as it is.
  lemma ShortDecrypt(s: Sys, w: World, cfg: Config, d: Draft, at: Path)
    requires at == Resolve(s.cwd, d.localFilePath) && at in w.fs.files && |w.fs.files[at]| < Crypt.HEADER_LEN
    ensures DecryptStepSpec(s, w, cfg, d).0.fs == w.fs
  {}

  lemma NoPassphrase(s: Sys, w: World, cfg: Config, d: Draft)
    requires cfg.encryption == ""
    ensures DecryptStepSpec(s, w, cfg, d).0.fs == w.fs
  {}

  lemma ShutDecrypt(s: Sys, w: World, cfg: Config, d: Draft, at: Path, salt: string, nonce: string, sealed: string)
    requires at == Resolve(s.cwd, d.localFilePath) && Front(w.fs, at, Crypt.PREFIX + salt + nonce + sealed)
    requires cfg.encryption == "" || Shut(s, cfg.encryption, salt, nonce, sealed)
    ensures DecryptStepSpec(s, w, cfg, d).0.fs == w.fs
  {
    if cfg.encryption == "" {
      NoPassphrase(s, w, cfg, d);
    } else if |w.fs.files[at]| < Crypt.HEADER_LEN {
      ShortDecrypt(s, w, cfg, d, at);
    } else {
      var k := FrontOfContainer(salt, nonce, sealed, w.fs.files[at]);
      LockedDecrypt(s, w, cfg, d, at, salt, nonce, sealed[..k]);
    }
  }

  lemma NoFrontUnzips(s: Sys, salt: string, nonce: string, sealed: string, f: string)
    requires Lawful(s) && f <= Crypt.PREFIX + salt + nonce + sealed
    ensures s.gunzip(f) == None
  {
    var c := Crypt.PREFIX + salt + nonce + sealed;
    assert c[0] == 'v';
  }

  lemma UnzippedStops(s: Sys, w: World, d: Draft, at: Path)
    requires at == Resolve(s.cwd, d.localFilePath) && at in w.fs.files && s.gunzip(w.fs.files[at]) == None
    ensures var r := UnpackSpec(s, w, d); !r.2 && !r.0.alive
  {}

  lemma ShutOpens(s: Sys, w: World, cfg: Config, d: Draft, at: Path, salt: string, nonce: string, sealed: string)
    requires Lawful(s) && at == Resolve(s.cwd, d.localFilePath)
    requires Front(w.fs, at, Crypt.PREFIX + salt + nonce + sealed)
    requires cfg.encryption == "" || Shut(s, cfg.encryption, salt, nonce, sealed)
    ensures var r := OpenSpec(s, w, cfg, d); !r.2 && !r.0.alive
  {
    ShutDecrypt(s, w, cfg, d, at, salt, nonce, sealed);
    var e := DecryptStepSpec(s, w, cfg, d);
    if e.1 {
      NoFrontUnzips(s, salt, nonce, sealed, w.fs.files[at]);
      UnzippedStops(s, e.0, d, at);
    } else {
      DecryptStopsDead(s, w, cfg, d);
    }
  }

  // From a bucket whose object is a container that does not open: under every
  // schedule, with files torn and errors dropped, the process ends and Consul and
  // the buckets are as they were.
  lemma LockedNeverRestores(s: Sys, w: World, cfg: Config, key: string, salt: string, nonce: string, sealed: string)
    requires Lawful(s) && !cfg.acceptance && (BucketOf(cfg), key) in w.objects
    requires w.objects[(BucketOf(cfg), key)] == Crypt.PREFIX + salt + nonce + sealed
    requires cfg.encryption == "" || Shut(s, cfg.encryption, salt, nonce, sealed)
    ensures var r := DoWorkSpec(s, w, cfg, key); r.1 == None && !r.0.alive && Outside(w, r.0)
  {
    var at := Resolve(s.cwd, LocalPath(cfg, key));
    RemoteFront(s, w, cfg, key, at, w.objects[(BucketOf(cfg), key)]);
    var l := LocateSpec(s, w, cfg, NewDraft(key));
    if l.2 {
      ShutOpens(s, l.0, cfg, l.1, at, salt, nonce, sealed);
    }
    LoadFrame(s, w, cfg, key);
  }
}
