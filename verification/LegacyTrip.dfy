/**
 The legacy restore undoes the legacy backup, as far as keys go: from a bucket on
 any machine, and from the archive an acceptance run leaves on disk.
 */
module LegacyTrip {
  import opened Wrappers
  import opened Paths
  import opened Text
  import opened Names
  import opened Records
  import opened Metadata
  import opened World
  import opened Config
  import opened ConsulClient
  import opened Archiver
  import opened ArchiveFacts
  import opened Snapshots
  import opened LegacyRestore
  import opened LegacyRestoreFacts
  import Crypt

  // ---- Loading what is on disk ----

  // The lists and the metadata a snapshot's files decode to.
  ghost predicate Reads(c: Contents, kvs: Slice<KVPair>, pqs: Slice<PreparedQuery>, acls: Slice<ACLEntry>, m: Meta) {
    && UnmarshalKVs(c.kv) == Some(kvs) && UnmarshalPQs(c.pq) == Some(pqs) && UnmarshalACLs(c.acl) == Some(acls)
    && UnmarshalLegacyMeta(c.meta) == Some(m) && m.start == c.start
  }

  lemma ReadFamilyOk(s: Sys, w: World, d: Draft, f: Family, text: string)
    requires FaultFree(s) && w.alive && FileAt(w.fs, Resolve(s.cwd, d.extractedPath) + [DataName(f, d.start)], text)
    ensures ReadFamilySpec(s, w, d, f) == (Next(s, w), Some(text))
  {
    DataNameSimple(f, d.start);
    ReadEffect(s, w, d.extractedPath, DataName(f, d.start), text);
  }

  lemma LoadKVOk(s: Sys, w: World, d: Draft, text: string, l: Slice<KVPair>)
    requires FaultFree(s) && w.alive && FileAt(w.fs, Resolve(s.cwd, d.extractedPath) + [DataName(KV, d.start)], text)
    requires UnmarshalKVs(text) == Some(l)
    ensures LoadKVSpec(s, w, d) == (Next(s, w), d.(jsonData := l), true)
  {
    ReadFamilyOk(s, w, d, KV, text);
  }

  lemma LoadPQOk(s: Sys, w: World, d: Draft, text: string, l: Slice<PreparedQuery>)
    requires FaultFree(s) && w.alive && FileAt(w.fs, Resolve(s.cwd, d.extractedPath) + [DataName(PQ, d.start)], text)
    requires UnmarshalPQs(text) == Some(l)
    ensures LoadPQSpec(s, w, d) == (Next(s, w), d.(pqData := l), true)
  {
    ReadFamilyOk(s, w, d, PQ, text);
  }

  lemma LoadACLOk(s: Sys, w: World, d: Draft, text: string, l: Slice<ACLEntry>)
    requires FaultFree(s) && w.alive && FileAt(w.fs, Resolve(s.cwd, d.extractedPath) + [DataName(ACL, d.start)], text)
    requires UnmarshalACLs(text) == Some(l)
    ensures LoadACLSpec(s, w, d) == (Next(s, w), d.(aclData := l), true)
  {
    ReadFamilyOk(s, w, d, ACL, text);
  }

  lemma LoadDataOk(s: Sys, w: World, d: Draft, c: Contents, kvs: Slice<KVPair>, pqs: Slice<PreparedQuery>,
                   acls: Slice<ACLEntry>)
    requires FaultFree(s) && w.alive && At(w.fs, Resolve(s.cwd, d.extractedPath), c)
    requires UnmarshalKVs(c.kv) == Some(kvs) && UnmarshalPQs(c.pq) == Some(pqs) && UnmarshalACLs(c.acl) == Some(acls)
    requires d.start == c.start
    ensures var r := LoadDataSpec(s, w, d);
            r == (r.0.(alive := true),
                  if d.version == V1 then d else d.(jsonData := kvs, pqData := pqs, aclData := acls),
                  true)
  {
    if d.version != V1 {
      LoadKVOk(s, w, d, c.kv, kvs);
      var k := LoadKVSpec(s, w, d);
      LoadPQOk(s, k.0, k.1, c.pq, pqs);
      var p := LoadPQSpec(s, k.0, k.1);
      LoadACLOk(s, p.0, p.1, c.acl, acls);
    }
  }

  // The metadata is found if the path has no ".gz" of its own.
  lemma InspectOk(s: Sys, w: World, d: Draft, path: string, text: string, m: Meta)
    requires FaultFree(s) && w.alive && d.localFilePath == path + TAR_GZ && !Contains(path, GZ)
    requires FileAt(w.fs, Resolve(s.cwd, path) + [META], text) && UnmarshalLegacyMeta(text) == Some(m)
    ensures InspectSpec(s, w, d) ==
            (Next(s, w), d.(extractedPath := path, version := m.version, start := m.start), true)
  {
    StripExactIff(path);
    DataNameSimple(KV, 0);
    ReadEffect(s, w, path, META, text);
  }

  // A version "0.0.1" skips all loading.
  function Wanted(m: Meta, kvs: Slice<KVPair>): Slice<KVPair> { if m.version == V1 then Nil else kvs }

  ghost predicate Loaded(r: (World, Draft, bool), kvs: Slice<KVPair>) {
    r == (r.0.(alive := true), r.1.(jsonData := kvs), true)
  }

  lemma InspectAndLoadOk(s: Sys, w: World, d: Draft, path: string, c: Contents, kvs: Slice<KVPair>,
                         pqs: Slice<PreparedQuery>,
                         acls: Slice<ACLEntry>, m: Meta)
    requires FaultFree(s) && w.alive && d.localFilePath == path + TAR_GZ && !Contains(path, GZ) && d.jsonData == Nil
    requires At(w.fs, Resolve(s.cwd, path), c) && Reads(c, kvs, pqs, acls, m)
    ensures Loaded(InspectAndLoadSpec(s, w, d), Wanted(m, kvs))
  {
    InspectOk(s, w, d, path, c.meta, m);
    LoadDataOk(s, Next(s, w), d.(extractedPath := path, version := m.version, start := m.start), c, kvs, pqs, acls);
  }

  // Otherwise the path is cut short somewhere inside. With nothing to be found
  // there, and a tar stream that is no list of pairs, the process ends.
  lemma InspectGz(s: Sys, w: World, d: Draft, path: string)
    requires d.localFilePath == path + TAR_GZ && Contains(path, GZ)
    requires Resolve(s.cwd, Join(StripSuffixes(d.localFilePath), META)) !in w.fs.files
    requires NoV1(s, w, d)
    ensures StripSuffixes(d.localFilePath) != path && !InspectAndLoadSpec(s, w, d).2
  {
    StripExactIff(path);
    NoV1Stops(s, Next(s, w), d.(extractedPath := StripSuffixes(d.localFilePath)));
  }

  predicate NoV1(s: Sys, w: World, d: Draft) {
    var p := Resolve(s.cwd, d.localFilePath);
    p in w.fs.files && s.gunzip(w.fs.files[p]).Some? ==> UnmarshalKVs(s.gunzip(w.fs.files[p]).value) == None
  }

  lemma NoV1Stops(s: Sys, w: World, d: Draft)
    requires NoV1(s, w, d)
    ensures !ParseV1Spec(s, w, d).2
  {}

  // ---- Unpacking ----

  lemma UnTarGzIs(s: Sys, w: World, src: string, dest: string, q: Path, es: seq<Entry>)
    requires Lawful(s) && FaultFree(s) && w.alive && q == Resolve(s.cwd, dest)
    requires FileAt(w.fs, Resolve(s.cwd, src), s.gzip(s.tar(es)))
    ensures UnTarGzSpec(s, w, src, dest) == Extract(s, Next(s, w), q, es)
  {
    assert s.untar(s.tar(es)) == Tape(es, true);
  }

  // Into a directory that accepts it.
  lemma UnpackBeside(s: Sys, w: World, q: Path, es: seq<Entry>, base: string, c: Contents)
    requires FaultFree(s) && w.alive && Carries(es, [base], c) && Accepts(w.fs, q, es)
    ensures Extract(s, w, q, es).1 && Extract(s, w, q, es).0.alive && At(Extract(s, w, q, es).0.fs, q + [base], c)
  {
    ExtractOk(s, w, q, es);
    UnpackAt(s, w, q, es, [base], c);
  }

  // Such is one where the archive's own directory is not there yet.
  lemma FreshBaseAccepts(fs: Fs, q: Path, es: seq<Entry>, base: string, c: Contents)
    requires Carries(es, [base], c) && CanMkdir(fs, q + [base]) && Fresh(fs, q + [base])
    ensures Accepts(fs, q, es)
  {
    var k :| 0 <= k < |es| && es[k] == Entry([base] + [META], false, c.meta);
    forall i | 0 <= i < |es| ensures Clear(fs, q, es[i]) {
      var p := q + es[i].name;
      assert q + [base] <= p;
      if q + [base] == p {
        assert es[i].name == p[|q|..] == [base];
        assert [base] < es[k].name;
      }
      ClearBelow(fs, q, q + [base], es[i]);
    }
  }

  // Members below a directory that is not there have nothing in their way.
  lemma ClearBelow(fs: Fs, dest: Path, at: Path, e: Entry)
    requires CanMkdir(fs, at) && Fresh(fs, at) && dest <= at <= dest + e.name && e.name != []
    requires at == dest + e.name ==> e.isDir
    ensures Clear(fs, dest, e)
  {
    var p := dest + e.name;
    forall k | 0 <= k <= |p| ensures p[..k] !in fs.files {
      if k <= |at| {
        assert p[..k] == at[..k];
      } else {
        assert at <= p[..k];
      }
    }
  }

  // Over the very directory it was packed from.
  lemma UnpackOver(s: Sys, w: World, q: Path, base: string, locs: seq<Path>, c: Contents)
    requires FaultFree(s) && w.alive && Tree(w.fs) && Lists(locs, Under(w.fs, q + [base])) && At(w.fs, q + [base], c)
    ensures var r := Extract(s, w, q, EntriesOf(w.fs, q + [base], [base], locs));
            r.1 && r.0.alive && r.0.fs == w.fs && At(r.0.fs, q + [base], c)
  {
    var root := q + [base];
    var es := EntriesOf(w.fs, root, [base], locs);
    EntriesSound(w.fs, root, [base], locs);
    forall i | 0 <= i < |es| ensures Present(w.fs, q, es[i]) {
      StillPresent(w.fs, q, base, locs, es[i]);
    }
    ExtractSame(s, w, q, es);
  }

  lemma StillPresent(fs: Fs, q: Path, base: string, locs: seq<Path>, e: Entry)
    requires Tree(fs) && Lists(locs, Under(fs, q + [base])) && From(fs, q + [base], [base], locs, e)
    ensures Present(fs, q, e)
  {
    var p := Origin(q + [base], [base], e.name);
    assert p in Under(fs, q + [base]);
    assert e.name[0] == base;
    assert q + e.name == p;
  }

  // ---- From the file to the lists ----

  lemma Site(cwd: Path, dir: string, base: string, path: string)
    requires dir != "" && Simple(base) && Simple(base + TAR_GZ) && path == dir + "/" + base
    ensures path + TAR_GZ == dir + "/" + (base + TAR_GZ)
    ensures Resolve(cwd, path) == Resolve(cwd, dir) + [base]
    ensures Resolve(cwd, path + TAR_GZ) == Resolve(cwd, dir) + [base + TAR_GZ]
    ensures Resolve(cwd, Dir(path + TAR_GZ)) == Resolve(cwd, dir)
  {
    Regroup(dir + "/", base, TAR_GZ);
    ResolveSlash(cwd, dir, base);
    ResolveSlash(cwd, dir, base + TAR_GZ);
    ResolveDir(cwd, dir, base + TAR_GZ);
  }

  // The step from a decrypted archive to the loaded lists.
  lemma OpenFrom(s: Sys, w: World, cfg: Config, d: Draft, path: string, c: Contents, kvs: Slice<KVPair>,
                 pqs: Slice<PreparedQuery>,
                 acls: Slice<ACLEntry>, m: Meta, e: (World, bool), x: (World, bool))
    requires FaultFree(s) && d.localFilePath == path + TAR_GZ && !Contains(path, GZ) && d.jsonData == Nil
    requires e == DecryptStepSpec(s, w, cfg, d) && e.1
    requires x == ExtractSpec(s, e.0, d) && x.1 && x.0.alive && At(x.0.fs, Resolve(s.cwd, path), c)
    requires Reads(c, kvs, pqs, acls, m)
    ensures Loaded(OpenSpec(s, w, cfg, d), Wanted(m, kvs))
  {
    InspectAndLoadOk(s, x.0, d, path, c, kvs, pqs, acls, m);
  }

  lemma OpenGz(s: Sys, w: World, cfg: Config, d: Draft, path: string, e: (World, bool), x: (World, bool))
    requires d.localFilePath == path + TAR_GZ && Contains(path, GZ)
    requires e == DecryptStepSpec(s, w, cfg, d) && x == ExtractSpec(s, e.0, d)
    requires Resolve(s.cwd, Join(StripSuffixes(d.localFilePath), META)) !in x.0.fs.files && NoV1(s, x.0, d)
    ensures !OpenSpec(s, w, cfg, d).2
  {
    if e.1 && x.1 {
      InspectGz(s, x.0, d, path);
    }
  }

  // An archive in a directory that accepts its members.
  ghost predicate Unpackable(s: Sys, w: World, dir: string, base: string, c: Contents) {
    Lawful(s) && FaultFree(s) && w.alive && dir != "" && Simple(base) && Simple(base + TAR_GZ)
    && Beside(s, w.fs, Resolve(s.cwd, dir), base, c)
  }

  ghost predicate Beside(s: Sys, fs: Fs, q: Path, base: string, c: Contents) {
    var at := q + [base + TAR_GZ];
    at in fs.files && IsArchive(s, fs.files[at], [base], c, false) && Accepts(fs, q, Inside(s, fs.files[at]))
  }

  lemma UnpackHere(s: Sys, w: World, d: Draft, q: Path, base: string, c: Contents) returns (es: seq<Entry>)
    requires Lawful(s) && FaultFree(s) && w.alive && Beside(s, w.fs, q, base, c)
    requires q == Resolve(s.cwd, Dir(d.localFilePath)) && q + [base + TAR_GZ] == Resolve(s.cwd, d.localFilePath)
    ensures Carries(es, [base], c) && w.fs.files[q + [base + TAR_GZ]] == s.gzip(s.tar(es))
    ensures ExtractSpec(s, w, d) == Extract(s, Next(s, w), q, es)
    ensures var x := ExtractSpec(s, w, d); x.1 && x.0.alive && At(x.0.fs, q + [base], c)
  {
    es := Inside(s, w.fs.files[q + [base + TAR_GZ]]);
    ArchiveMembers(s, w.fs.files[q + [base + TAR_GZ]], [base], c, false);
    UnpackBeside(s, Next(s, w), q, es, base, c);
    ExtractIs(s, w, d, q, es);
  }

  lemma ExtractOkHere(s: Sys, w: World, d: Draft, dir: string, base: string, path: string, c: Contents)
    requires Unpackable(s, w, dir, base, c) && path == dir + "/" + base && d.localFilePath == path + TAR_GZ
    ensures var x := ExtractSpec(s, w, d); x.1 && x.0.alive && At(x.0.fs, Resolve(s.cwd, path), c)
  {
    Site(s.cwd, dir, base, path);
    var _ := UnpackHere(s, w, d, Resolve(s.cwd, dir), base, c);
  }

  lemma ExtractIs(s: Sys, w: World, d: Draft, q: Path, es: seq<Entry>)
    requires Lawful(s) && FaultFree(s) && w.alive && q == Resolve(s.cwd, Dir(d.localFilePath))
    requires FileAt(w.fs, Resolve(s.cwd, d.localFilePath), s.gzip(s.tar(es)))
    requires Extract(s, Next(s, w), q, es).1
    ensures ExtractSpec(s, w, d) == Extract(s, Next(s, w), q, es)
  {
    UnTarGzIs(s, w, d.localFilePath, Dir(d.localFilePath), q, es);
  }

  lemma ArchiveIsGzip(s: Sys, data: string, prefix: Path, c: Contents, sole: bool)
    requires Lawful(s) && IsArchive(s, data, prefix, c, sole)
    ensures s.gunzip(data).Some?
  {
    var es :| data == s.gzip(s.tar(es)) && Carries(es, prefix, c);
    assert s.gunzip(s.gzip(s.tar(es))) == Some(s.tar(es));
  }

  lemma OpenUnpackable(s: Sys, w: World, cfg: Config, d: Draft, dir: string, base: string, path: string, c: Contents,
                       kvs: Slice<KVPair>, pqs: Slice<PreparedQuery>, acls: Slice<ACLEntry>, m: Meta, e: (World, bool))
    requires e == DecryptStepSpec(s, w, cfg, d) && e.1
    requires Unpackable(s, e.0, dir, base, c) && path == dir + "/" + base && d.localFilePath == path + TAR_GZ
    requires !Contains(path, GZ) && d.jsonData == Nil && Reads(c, kvs, pqs, acls, m)
    ensures Loaded(OpenSpec(s, w, cfg, d), Wanted(m, kvs))
  {
    ExtractOkHere(s, e.0, d, dir, base, path, c);
    OpenFrom(s, w, cfg, d, path, c, kvs, pqs, acls, m, e, ExtractSpec(s, e.0, d));
  }

  lemma PlainHere(s: Sys, w: World, cfg: Config, d: Draft, dir: string, base: string, path: string, c: Contents,
                  e: (World, bool))
    requires Unpackable(s, w, dir, base, c) && path == dir + "/" + base && d.localFilePath == path + TAR_GZ
    requires e == DecryptStepSpec(s, w, cfg, d)
    ensures e == (Next(s, w), true) && Unpackable(s, e.0, dir, base, c)
  {
    var p := Resolve(s.cwd, dir) + [base + TAR_GZ];
    Site(s.cwd, dir, base, path);
    ArchiveIsGzip(s, w.fs.files[p], [base], c, false);
    PlainDecrypt(s, w, cfg, d, p, w.fs.files[p]);
  }

  lemma OpenPlain(s: Sys, w: World, cfg: Config, d: Draft, dir: string, base: string, path: string, c: Contents,
                  kvs: Slice<KVPair>, pqs: Slice<PreparedQuery>, acls: Slice<ACLEntry>, m: Meta)
    requires Unpackable(s, w, dir, base, c) && path == dir + "/" + base && d.localFilePath == path + TAR_GZ
    requires !Contains(path, GZ) && d.jsonData == Nil && Reads(c, kvs, pqs, acls, m)
    ensures Loaded(OpenSpec(s, w, cfg, d), Wanted(m, kvs))
  {
    var e := DecryptStepSpec(s, w, cfg, d);
    PlainHere(s, w, cfg, d, dir, base, path, c, e);
    OpenUnpackable(s, w, cfg, d, dir, base, path, c, kvs, pqs, acls, m, e);
  }

  // The same from the archive's encrypted container.
  lemma OpenEncrypted(s: Sys, w: World, cfg: Config, d: Draft, dir: string, base: string, path: string, c: Contents,
                      kvs: Slice<KVPair>, pqs: Slice<PreparedQuery>, acls: Slice<ACLEntry>, m: Meta,
                      salt: string, nonce: string, data: string, plain: World)
    requires path == dir + "/" + base && d.localFilePath == path + TAR_GZ
    requires plain == w.(fs := Put(w.fs, Resolve(s.cwd, dir) + [base + TAR_GZ], data))
    requires Unpackable(s, plain, dir, base, c)
    requires !Contains(path, GZ) && d.jsonData == Nil && Reads(c, kvs, pqs, acls, m)
    requires Sealing(s) && cfg.encryption != "" && |salt| == Crypt.SALT_LEN && |nonce| == Crypt.NONCE_LEN
    requires var p := Resolve(s.cwd, dir) + [base + TAR_GZ];
             CanWrite(w.fs, p) && FileAt(w.fs, p, Crypt.Container(s, cfg.encryption, salt, nonce, data))
    ensures Loaded(OpenSpec(s, w, cfg, d), Wanted(m, kvs))
  {
    var p := Resolve(s.cwd, dir) + [base + TAR_GZ];
    Site(s.cwd, dir, base, path);
    UnlockedDecrypt(s, w, cfg, d, p, salt, nonce, data);
    OpenUnpackable(s, w, cfg, d, dir, base, path, c, kvs, pqs, acls, m, DecryptStepSpec(s, w, cfg, d));
  }

  // ---- From a bucket ----

  function BucketOf(cfg: Config): Bucket {
    if |cfg.gcsBucket| < 1 then Bucket(S3, cfg.s3Bucket) else Bucket(GCS, cfg.gcsBucket)
  }

  // The file holds the front of the data, or all of it.
  predicate Front(fs: Fs, at: Path, data: string) {
    at in fs.files && fs.files[at] <= data
  }

  lemma FetchFront(s: Sys, w: World, cfg: Config, key: string, local: string, at: Path, data: string)
    requires (BucketOf(cfg), key) in w.objects && data == w.objects[(BucketOf(cfg), key)] && at == Resolve(s.cwd, local)
    ensures var r := FetchSpec(s, w, cfg, key, local); r.1 ==> Front(r.0.fs, at, data)
  {}

  // Whatever fails, a fetch that is not fatal leaves the object or a front of it.
  lemma RemoteFront(s: Sys, w: World, cfg: Config, key: string, at: Path, data: string)
    requires at == Resolve(s.cwd, LocalPath(cfg, key))
    requires (BucketOf(cfg), key) in w.objects && data == w.objects[(BucketOf(cfg), key)]
    ensures var r := RemoteSpec(s, w, cfg, NewDraft(key));
            r.1 == NewDraft(key).(localFilePath := LocalPath(cfg, key))
            && (if r.2 then Front(r.0.fs, at, data) else !r.0.alive)
  {
    var local := LocalPath(cfg, key);
    var a := Write(s, Mkdir(s, w, Dir(local)).0, local, "");
    FetchFront(s, a.0, cfg, key, local, at, data);
  }

  // How the local path of this object is spelled.
  predicate Spelled(cfg: Config, key: string, dir: string, base: string) {
    dir != "" && Simple(base) && Simple(base + TAR_GZ) && LocalPath(cfg, key) == dir + "/" + (base + TAR_GZ)
  }

  // Nothing stands in the way of fetching and unpacking it.
  predicate Ready(s: Sys, w: World, cfg: Config, key: string, dir: string, base: string) {
    && (BucketOf(cfg), key) in w.objects
    && ReadyFor(s, w, cfg, key, dir, base, w.objects[(BucketOf(cfg), key)])
  }

  // The same where the object is, or contains, this archive.
  predicate ReadyFor(s: Sys, w: World, cfg: Config, key: string, dir: string, base: string, data: string) {
    var q := Resolve(s.cwd, dir);
    && w.alive && !cfg.acceptance && (BucketOf(cfg), key) in w.objects
    && Accepts(w.fs, q, Inside(s, data)) && q + [base + TAR_GZ] !in w.fs.dirs
  }

  lemma FetchOk(s: Sys, w: World, cfg: Config, key: string, local: string, at: Path, data: string)
    requires FaultFree(s) && w.alive && (BucketOf(cfg), key) in w.objects && data == w.objects[(BucketOf(cfg), key)]
    requires at == Resolve(s.cwd, local) && CanWrite(w.fs, at)
    ensures var r := FetchSpec(s, w, cfg, key, local); r.1 && r.0.alive && r.0.fs == Put(w.fs, at, data)
  {}

  lemma NotAboveMembers(q: Path, a: string, b: string, es: seq<Entry>)
    requires a != b && forall i :: 0 <= i < |es| ==> [a] <= es[i].name
    ensures forall i :: 0 <= i < |es| ==> !(q + [b] <= q + es[i].name)
  {
    forall i | 0 <= i < |es| ensures !(q + [b] <= q + es[i].name) {
      Siblings(q, b, a, es[i].name[1..]);
      assert q + [a] + es[i].name[1..] == q + es[i].name;
    }
  }

  // Making a directory q and a file in it leaves room for the members beside it.
  lemma RoomFor(fs: Fs, q: Path, a: string, b: string, es: seq<Entry>, data: string)
    requires a != b && (forall i :: 0 <= i < |es| ==> [a] <= es[i].name) && Accepts(fs, q, es) && q + [b] !in fs.dirs
    ensures CanMkdir(fs, q) && CanWrite(AddDirs(fs, q), q + [b]) && q + [b] !in AddDirs(fs, q).dirs
    ensures Accepts(AddDirs(fs, q), q, es) && Accepts(Put(AddDirs(fs, q), q + [b], data), q, es)
  {
    AcceptsMkdir(fs, q, es);
    AcceptsDirs(fs, q, es, q);
    NotAboveMembers(q, a, b, es);
    AcceptsPut(AddDirs(fs, q), q, es, q + [b], data);
    assert q[..|q|] == q && (q + [b])[..|q|] == q;
    assert forall i :: 0 <= i <= |q| ==> |q[..i]| <= |q|;
  }

  lemma RemoteOk(s: Sys, w: World, cfg: Config, key: string, q: Path, at: Path, local: string, data: string)
    requires FaultFree(s) && w.alive && (BucketOf(cfg), key) in w.objects && data == w.objects[(BucketOf(cfg), key)]
    requires local == LocalPath(cfg, key) && q == Resolve(s.cwd, Dir(local)) && at == Resolve(s.cwd, local)
    requires CanMkdir(w.fs, q) && CanWrite(AddDirs(w.fs, q), at)
    ensures var r := RemoteSpec(s, w, cfg, NewDraft(key));
            && r.2 && r.1 == NewDraft(key).(localFilePath := local)
            && r.0.alive && r.0.fs == Put(AddDirs(w.fs, q), at, data)
  {
    var a := WriteAt(s, MkdirAt(s, w, q).0, at, "");
    FetchOk(s, a.0, cfg, key, local, at, data);
    assert Put(Put(AddDirs(w.fs, q), at, ""), at, data) == Put(AddDirs(w.fs, q), at, data);
  }

  // Fetching an object beside which this archive can be unpacked.
  lemma LocateObject(s: Sys, w: World, cfg: Config, key: string, dir: string, base: string, path: string, data: string,
                     c: Contents, obj: string, l: (World, Draft, bool))
    requires Lawful(s) && FaultFree(s) && Spelled(cfg, key, dir, base) && ReadyFor(s, w, cfg, key, dir, base, data)
    requires path == dir + "/" + base && obj == w.objects[(BucketOf(cfg), key)] && IsArchive(s, data, [base], c, false)
    requires l == LocateSpec(s, w, cfg, NewDraft(key))
    ensures l.2 && l.0.alive && l.1 == NewDraft(key).(localFilePath := path + TAR_GZ)
    ensures var q := Resolve(s.cwd, dir); var at := q + [base + TAR_GZ];
            && l.0.fs == Put(AddDirs(w.fs, q), at, obj) && CanWrite(AddDirs(w.fs, q), at)
            && Accepts(Put(AddDirs(w.fs, q), at, data), q, Inside(s, data))
  {
    var q := Resolve(s.cwd, dir);
    Site(s.cwd, dir, base, path);
    assert |base + TAR_GZ| == |base| + 7;
    ArchiveMembers(s, data, [base], c, false);
    RoomFor(w.fs, q, base, base + TAR_GZ, Inside(s, data), data);
    RemoteOk(s, w, cfg, key, q, q + [base + TAR_GZ], path + TAR_GZ, obj);
  }

  lemma LocateOk(s: Sys, w: World, cfg: Config, key: string, dir: string, base: string, path: string, data: string,
                 c: Contents, l: (World, Draft, bool))
    requires Lawful(s) && FaultFree(s) && Spelled(cfg, key, dir, base) && Ready(s, w, cfg, key, dir, base)
    requires path == dir + "/" + base
    requires data == w.objects[(BucketOf(cfg), key)] && IsArchive(s, data, [base], c, false)
    requires l == LocateSpec(s, w, cfg, NewDraft(key))
    ensures l.2 && l.1 == NewDraft(key).(localFilePath := path + TAR_GZ) && Unpackable(s, l.0, dir, base, c)
    ensures l.0.fs == Put(AddDirs(w.fs, Resolve(s.cwd, dir)), Resolve(s.cwd, dir) + [base + TAR_GZ], data)
  {
    LocateObject(s, w, cfg, key, dir, base, path, data, c, data, l);
  }

  // What a restore that found these pairs reports and leaves.
  ghost predicate Restored(before: World, r: (World, Option<Counts>), kvs: Slice<KVPair>) {
    && r.1 == Some(Counts(kvs.Len(), 0))
    && r.0.consul == before.consul.(kv := Overlay(before.consul.kv, kvs.Elems()))
    && LaidOver(before.consul.kv, r.0.consul.kv, kvs.Elems())
  }

  lemma ReplayAll(s: Sys, before: World, w: World, d: Draft)
    requires FaultFree(s) && w.alive && Outside(before, w)
    ensures Restored(before, ReplaySpec(s, w, d, true), d.jsonData)
  {
    ReplayMeaning(s, before, w, d, true);
    LandingAll(s, w.calls, d.jsonData.Elems());
    OverlayIsLaid(before.consul.kv, d.jsonData.Elems());
  }

  lemma LoadRestores(s: Sys, w: World, cfg: Config, key: string, kvs: Slice<KVPair>, l: (World, Draft, bool))
    requires FaultFree(s) && l == LoadSpec(s, w, cfg, key) && Loaded(l, kvs)
    ensures Restored(w, DoWorkSpec(s, w, cfg, key), kvs)
  {
    LoadFrame(s, w, cfg, key);
    ReplayAll(s, w, l.0, l.1);
  }

  // Restoring an archived snapshot from a bucket: its keys over the store, unless
  // its version is "0.0.1".
  lemma RestoreArchive(s: Sys, w: World, cfg: Config, key: string, dir: string, base: string, data: string, c: Contents,
                       kvs: Slice<KVPair>, pqs: Slice<PreparedQuery>, acls: Slice<ACLEntry>, m: Meta)
    requires Lawful(s) && FaultFree(s) && Spelled(cfg, key, dir, base) && Ready(s, w, cfg, key, dir, base)
    requires !Contains(dir + "/" + base, GZ)
    requires data == w.objects[(BucketOf(cfg), key)] && IsArchive(s, data, [base], c, false)
    requires Reads(c, kvs, pqs, acls, m)
    ensures Restored(w, DoWorkSpec(s, w, cfg, key), Wanted(m, kvs))
  {
    var l := LocateSpec(s, w, cfg, NewDraft(key));
    LocateOk(s, w, cfg, key, dir, base, dir + "/" + base, data, c, l);
    OpenPlain(s, l.0, cfg, l.1, dir, base, dir + "/" + base, c, kvs, pqs, acls, m);
    LoadRestores(s, w, cfg, key, Wanted(m, kvs), LoadSpec(s, w, cfg, key));
  }

  // ---- A path with a ".gz" of its own ----

  // A tar stream is not a JSON list of pairs.
  ghost predicate TarIsNoList(s: Sys) { forall es: seq<Entry> :: UnmarshalKVs(s.tar(es)) == None }

  // Nothing is, or will be unpacked, where the shortened path looks.
  predicate NothingThere(s: Sys, fs: Fs, dir: string, base: string) {
    var p := Resolve(s.cwd, Join(StripSuffixes(dir + "/" + base + TAR_GZ), META));
    p !in fs.files && !(Resolve(s.cwd, dir) + [base] <= p) && p != Resolve(s.cwd, dir) + [base + TAR_GZ]
  }

  lemma ExtractAround(s: Sys, w: World, q: Path, es: seq<Entry>, base: string, p: Path)
    requires forall i :: 0 <= i < |es| ==> [base] <= es[i].name
    requires !(q + [base] <= p)
    ensures var r := Extract(s, w, q, es).0.fs.files;
            (p in r <==> p in w.fs.files) && (p in r ==> r[p] == w.fs.files[p])
  {
    forall i | 0 <= i < |es| ensures q + es[i].name != p {
      assert q + [base] <= q + es[i].name;
    }
    ExtractElsewhere(s, w, q, es, p);
  }

  // Unpacking adds nothing there, and leaves the archive itself alone.
  lemma ExtractBeside(s: Sys, w: World, q: Path, es: seq<Entry>, base: string, c: Contents, p: Path)
    requires Carries(es, [base], c) && p !in w.fs.files && !(q + [base] <= p)
    ensures var r := Extract(s, w, q, es).0.fs.files; var at := q + [base + TAR_GZ];
            && p !in r && (at in r <==> at in w.fs.files) && (at in r ==> r[at] == w.fs.files[at])
  {
    assert |base + TAR_GZ| == |base| + 7;
    SiblingsApart(q, base, base + TAR_GZ);
    ExtractAround(s, w, q, es, base, q + [base + TAR_GZ]);
    ExtractAround(s, w, q, es, base, p);
  }

  lemma ExtractGz(s: Sys, w: World, d: Draft, q: Path, base: string, c: Contents, x: (World, bool), p: Path)
    requires Lawful(s) && FaultFree(s) && w.alive && Beside(s, w.fs, q, base, c)
    requires q == Resolve(s.cwd, Dir(d.localFilePath)) && q + [base + TAR_GZ] == Resolve(s.cwd, d.localFilePath)
    requires p !in w.fs.files && !(q + [base] <= p) && TarIsNoList(s) && x == ExtractSpec(s, w, d)
    ensures p !in x.0.fs.files && NoV1(s, x.0, d)
  {
    var es := UnpackHere(s, w, d, q, base, c);
    ExtractBeside(s, Next(s, w), q, es, base, c, p);
    assert s.gunzip(s.gzip(s.tar(es))) == Some(s.tar(es));
  }

  lemma LoadGz(s: Sys, w: World, cfg: Config, key: string, dir: string, base: string, path: string, data: string,
               c: Contents)
    requires Lawful(s) && FaultFree(s) && Spelled(cfg, key, dir, base) && Ready(s, w, cfg, key, dir, base)
    requires path == dir + "/" + base && Contains(path, GZ)
    requires data == w.objects[(BucketOf(cfg), key)] && IsArchive(s, data, [base], c, false)
    requires NothingThere(s, w.fs, dir, base) && TarIsNoList(s)
    ensures !LoadSpec(s, w, cfg, key).2
  {
    var l := LocateSpec(s, w, cfg, NewDraft(key));
    LocateOk(s, w, cfg, key, dir, base, path, data, c, l);
    var e := DecryptStepSpec(s, l.0, cfg, l.1);
    PlainHere(s, l.0, cfg, l.1, dir, base, path, c, e);
    var x := ExtractSpec(s, e.0, l.1);
    Site(s.cwd, dir, base, path);
    ExtractGz(s, e.0, l.1, Resolve(s.cwd, dir), base, c, x, Resolve(s.cwd, Join(StripSuffixes(path + TAR_GZ), META)));
    OpenGz(s, l.0, cfg, l.1, path, e, x);
  }

  // With nothing where a shortened path would look, an archive can be restored
  // exactly if the path it is unpacked to has no ".gz".
  lemma RestorableIff(s: Sys, w: World, cfg: Config, key: string, dir: string, base: string, data: string, c: Contents,
                      kvs: Slice<KVPair>, pqs: Slice<PreparedQuery>, acls: Slice<ACLEntry>, m: Meta)
    requires Lawful(s) && FaultFree(s) && Spelled(cfg, key, dir, base) && Ready(s, w, cfg, key, dir, base)
    requires data == w.objects[(BucketOf(cfg), key)] && IsArchive(s, data, [base], c, false)
    requires Reads(c, kvs, pqs, acls, m)
    requires NothingThere(s, w.fs, dir, base) && TarIsNoList(s)
    ensures DoWorkSpec(s, w, cfg, key).1.Some? <==> !Contains(dir + "/" + base, GZ)
  {
    if Contains(dir + "/" + base, GZ) {
      LoadGz(s, w, cfg, key, dir, base, dir + "/" + base, data, c);
    } else {
      RestoreArchive(s, w, cfg, key, dir, base, data, c, kvs, pqs, acls, m);
    }
  }

  // ---- From the archive of an acceptance run ----

  // The archive in q of q's own directory `base`, both still as it was made.
  ghost predicate InPlace(s: Sys, w: World, q: Path, base: string, c: Contents) {
    && Lawful(s) && FaultFree(s) && w.alive && Tree(w.fs) && At(w.fs, q + [base], c)
    && FileAt(w.fs, q + [base + TAR_GZ],
         s.gzip(s.tar(EntriesOf(w.fs, q + [base], [base], s.order(Under(w.fs, q + [base]))))))
  }

  lemma PlainInPlace(s: Sys, w: World, cfg: Config, d: Draft, q: Path, base: string, c: Contents, e: (World, bool))
    requires InPlace(s, w, q, base, c) && Resolve(s.cwd, d.localFilePath) == q + [base + TAR_GZ]
    requires e == DecryptStepSpec(s, w, cfg, d)
    ensures e == (Next(s, w), true) && InPlace(s, e.0, q, base, c)
  {
    var es := EntriesOf(w.fs, q + [base], [base], s.order(Under(w.fs, q + [base])));
    assert s.gunzip(s.gzip(s.tar(es))) == Some(s.tar(es));
    PlainDecrypt(s, w, cfg, d, q + [base + TAR_GZ], s.gzip(s.tar(es)));
  }

  lemma ExtractInPlace(s: Sys, w: World, d: Draft, q: Path, base: string, c: Contents)
    requires InPlace(s, w, q, base, c)
    requires q == Resolve(s.cwd, Dir(d.localFilePath)) && Resolve(s.cwd, d.localFilePath) == q + [base + TAR_GZ]
    ensures var x := ExtractSpec(s, w, d); x.1 && x.0.alive && At(x.0.fs, q + [base], c)
  {
    var locs := s.order(Under(w.fs, q + [base]));
    assert Lists(locs, Under(w.fs, q + [base]));
    UnpackOver(s, Next(s, w), q, base, locs, c);
    ExtractIs(s, w, d, q, EntriesOf(w.fs, q + [base], [base], locs));
  }

  lemma OpenInPlace(s: Sys, w: World, cfg: Config, d: Draft, dir: string, base: string, path: string, c: Contents,
                    kvs: Slice<KVPair>, pqs: Slice<PreparedQuery>, acls: Slice<ACLEntry>, m: Meta, e: (World, bool))
    requires InPlace(s, w, Resolve(s.cwd, dir), base, c) && dir != "" && Simple(base) && Simple(base + TAR_GZ)
    requires path == dir + "/" + base && d.localFilePath == path + TAR_GZ
    requires !Contains(path, GZ) && d.jsonData == Nil && Reads(c, kvs, pqs, acls, m)
    requires e == DecryptStepSpec(s, w, cfg, d)
    ensures Loaded(OpenSpec(s, w, cfg, d), Wanted(m, kvs))
  {
    Site(s.cwd, dir, base, path);
    PlainInPlace(s, w, cfg, d, Resolve(s.cwd, dir), base, c, e);
    ExtractInPlace(s, e.0, d, Resolve(s.cwd, dir), base, c);
    OpenFrom(s, w, cfg, d, path, c, kvs, pqs, acls, m, e, ExtractSpec(s, e.0, d));
  }

  lemma AcceptanceLocates(s: Sys, w: World, cfg: Config, key: string, path: string)
    requires cfg.acceptance && path == cfg.tmpDir + "/" + ACCEPTANCE
    ensures LoadSpec(s, w, cfg, key) == OpenSpec(s, w, cfg, NewDraft(key).(localFilePath := path + TAR_GZ))
  {
    Regroup(cfg.tmpDir + "/", ACCEPTANCE, TAR_GZ);
  }

  // An acceptance restore takes the archive from the temporary directory.
  lemma RestoreInPlace(s: Sys, w: World, cfg: Config, key: string, path: string, base: string, d: Draft, c: Contents,
                       kvs: Slice<KVPair>, pqs: Slice<PreparedQuery>, acls: Slice<ACLEntry>, m: Meta,
                       l: (World, Draft, bool))
    requires InPlace(s, w, Resolve(s.cwd, cfg.tmpDir), base, c) && cfg.tmpDir != "" && Simple(base)
    requires Simple(base + TAR_GZ)
    requires path == cfg.tmpDir + "/" + base && !Contains(path, GZ) && Reads(c, kvs, pqs, acls, m)
    requires d == NewDraft(key).(localFilePath := path + TAR_GZ)
    requires l == LoadSpec(s, w, cfg, key) && l == OpenSpec(s, w, cfg, d)
    ensures Restored(w, DoWorkSpec(s, w, cfg, key), Wanted(m, kvs))
  {
    OpenInPlace(s, w, cfg, d, cfg.tmpDir, base, path, c, kvs, pqs, acls, m, DecryptStepSpec(s, w, cfg, d));
    LoadRestores(s, w, cfg, key, Wanted(m, kvs), l);
  }
}
