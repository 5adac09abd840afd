/** The four files of a snapshot: on disk, in an archive, and unpacked again. */
module Snapshots {
  import opened Wrappers
  import opened Decimal
  import opened Paths
  import opened Names
  import opened World
  import opened Archiver
  import opened ArchiveFacts
  import opened Trees

  datatype Contents = Contents(start: int, kv: string, pq: string, acl: string, meta: string)

  function Placed(files: map<Path, string>, p: Path, c: Contents): map<Path, string> {
    files[p + [DataName(KV, c.start)] := c.kv][p + [DataName(PQ, c.start)] := c.pq]
         [p + [DataName(ACL, c.start)] := c.acl][p + [META] := c.meta]
  }

  // The file system after making the directory p and writing the files in it.
  function Staged(fs: Fs, p: Path, c: Contents): Fs {
    Fs(Placed(fs.files, p, c), fs.dirs + Ancestors(p))
  }

  predicate FileAt(fs: Fs, p: Path, text: string) { p in fs.files && fs.files[p] == text }

  // All four files are in the directory p.
  predicate At(fs: Fs, p: Path, c: Contents) {
    && FileAt(fs, p + [DataName(KV, c.start)], c.kv)
    && FileAt(fs, p + [DataName(PQ, c.start)], c.pq)
    && FileAt(fs, p + [DataName(ACL, c.start)], c.acl)
    && FileAt(fs, p + [META], c.meta)
  }

  // The four names, spelled out.
  lemma AtIs(fs: Fs, p: Path, c: Contents)
    ensures At(fs, p, c) <==>
              && FileAt(fs, p + ["consul.kv." + Format(c.start) + ".json"], c.kv)
              && FileAt(fs, p + ["consul.pq." + Format(c.start) + ".json"], c.pq)
              && FileAt(fs, p + ["consul.acl." + Format(c.start) + ".json"], c.acl)
              && FileAt(fs, p + ["meta.json"], c.meta)
  {
    assert "consul." + "kv" + "." == "consul.kv.";
    assert "consul." + "pq" + "." == "consul.pq.";
    assert "consul." + "acl" + "." == "consul.acl.";
  }

  // The four names differ, so no file overwrites another.
  lemma StagedAt(fs: Fs, p: Path, c: Contents)
    ensures At(Staged(fs, p, c), p, c)
  {
    var k, q, a := DataName(KV, c.start), DataName(PQ, c.start), DataName(ACL, c.start);
    DataNamesDistinct(KV, c.start, PQ, c.start);
    DataNamesDistinct(KV, c.start, ACL, c.start);
    DataNamesDistinct(PQ, c.start, ACL, c.start);
    DataNameSimple(KV, c.start);
    DataNameSimple(PQ, c.start);
    DataNameSimple(ACL, c.start);
    FourPlaced(fs.files, p, k, q, a, META, c.kv, c.pq, c.acl, c.meta);
  }

  lemma FourPlaced(
    files: map<Path, string>, p: Path, a: string, b: string, c: string, d: string,
    x: string, y: string, z: string, t: string)
    requires a != b && a != c && a != d && b != c && b != d && c != d
    ensures var m := files[p + [a] := x][p + [b] := y][p + [c] := z][p + [d] := t];
            m[p + [a]] == x && m[p + [b]] == y && m[p + [c]] == z && m[p + [d]] == t
  {
    assert forall u: string, v: string :: (p + [u])[|p|] == u && (p + [v])[|p|] == v;
  }

  // The directory p holds no data file of any other start time.
  ghost predicate Sole(fs: Fs, p: Path, start: int) {
    forall f: Family, t: int :: p + [DataName(f, t)] in fs.files ==> t == start
  }

  lemma StagedSole(fs: Fs, p: Path, c: Contents)
    requires Sole(fs, p, c.start)
    ensures Sole(Staged(fs, p, c), p, c.start)
  {
    var files := Staged(fs, p, c).files;
    forall f: Family, t: int | p + [DataName(f, t)] in files ensures t == c.start {
      DataNamesDistinct(f, t, KV, c.start);
      DataNamesDistinct(f, t, PQ, c.start);
      DataNamesDistinct(f, t, ACL, c.start);
      DataNameSimple(f, t);
      assert forall n: string :: (p + [n])[|p|] == n;
    }
  }

  lemma FreshSole(fs: Fs, p: Path, start: int)
    requires Fresh(fs, p)
    ensures Sole(fs, p, start)
  {
    assert forall n: string :: p <= p + [n];
  }

  // ---- Archives ----

  predicate Member(es: seq<Entry>, name: Path, text: string) { Entry(name, false, text) in es }

  // Members that unpack to the snapshot, in a directory named by the prefix.
  ghost predicate Carries(es: seq<Entry>, prefix: Path, c: Contents) {
    && Coherent(es)
    && (forall i :: 0 <= i < |es| ==> prefix <= es[i].name && es[i].name != [])
    && Member(es, prefix + [DataName(KV, c.start)], c.kv)
    && Member(es, prefix + [DataName(PQ, c.start)], c.pq)
    && Member(es, prefix + [DataName(ACL, c.start)], c.acl)
    && Member(es, prefix + [META], c.meta)
  }

  // No member is a data file of another start time.
  ghost predicate Only(es: seq<Entry>, prefix: Path, start: int) {
    forall i, f: Family, t: int ::
      0 <= i < |es| && !es[i].isDir && es[i].name == prefix + [DataName(f, t)] ==> t == start
  }

  // A gzipped tar stream that carries the snapshot (and no other, if `sole`).
  ghost predicate IsArchive(s: Sys, data: string, prefix: Path, c: Contents, sole: bool) {
    exists es :: data == s.gzip(s.tar(es)) && Carries(es, prefix, c) && (sole ==> Only(es, prefix, c.start))
  }

  lemma PackMember(s: Sys, fs: Fs, root: string, name: string, text: string)
    requires Lawful(s) && Tree(fs)
    requires FileAt(fs, Resolve(s.cwd, root) + [name], text)
    ensures var r := Resolve(s.cwd, root); var prefix := PrefixOf(s.layout, root);
            Member(EntriesOf(fs, r, prefix, s.order(Under(fs, r))), prefix + [name], text)
  {
    var r := Resolve(s.cwd, root);
    var q := r + [name];
    assert q in Under(fs, r);
    assert Lists(s.order(Under(fs, r)), Under(fs, r));
    assert q[|r|..] == [name];
    EntriesComplete(fs, r, PrefixOf(s.layout, root), s.order(Under(fs, r)), q);
  }

  lemma PackOnly(fs: Fs, root: Path, prefix: Path, locs: seq<Path>, start: int)
    requires Sole(fs, root, start) && Lists(locs, Under(fs, root))
    ensures Only(EntriesOf(fs, root, prefix, locs), prefix, start)
  {
    EntriesSound(fs, root, prefix, locs);
    var es := EntriesOf(fs, root, prefix, locs);
    forall i, f: Family, t: int
      | 0 <= i < |es| && !es[i].isDir && es[i].name == prefix + [DataName(f, t)]
      ensures t == start
    {
      assert From(fs, root, prefix, locs, es[i]);
      assert Origin(root, prefix, es[i].name) == root + [DataName(f, t)];
      assert root + [DataName(f, t)] in Under(fs, root);
    }
  }

  // Packing the staging directory carries the snapshot, whatever else is there.
  lemma PackCarries(s: Sys, fs: Fs, root: string, c: Contents, sole: bool)
    requires Lawful(s) && Tree(fs) && At(fs, Resolve(s.cwd, root), c)
    requires sole ==> Sole(fs, Resolve(s.cwd, root), c.start)
    ensures IsArchive(s, Pack(s, fs, root), PrefixOf(s.layout, root), c, sole)
  {
    var r := Resolve(s.cwd, root);
    var prefix := PrefixOf(s.layout, root);
    var locs := s.order(Under(fs, r));
    assert Lists(locs, Under(fs, r));
    EntriesSound(fs, r, prefix, locs);
    TreeIsCoherent(fs, r, prefix, locs);
    var es := EntriesOf(fs, r, prefix, locs);
    forall i | 0 <= i < |es| ensures prefix <= es[i].name && es[i].name != [] {
      assert From(fs, r, prefix, locs, es[i]);
    }
    PackMember(s, fs, root, DataName(KV, c.start), c.kv);
    PackMember(s, fs, root, DataName(PQ, c.start), c.pq);
    PackMember(s, fs, root, DataName(ACL, c.start), c.acl);
    PackMember(s, fs, root, META, c.meta);
    assert Carries(es, prefix, c);
    if sole {
      PackOnly(fs, r, prefix, locs, c.start);
    }
  }

  // ---- Unpacking ----

  lemma UnpackMember(s: Sys, w: World, dest: Path, es: seq<Entry>, name: Path, text: string)
    requires DistinctNames(es) && Member(es, name, text)
    requires Extract(s, w, dest, es).1
    ensures FileAt(Extract(s, w, dest, es).0.fs, dest + name, text)
  {
    var k :| 0 <= k < |es| && es[k] == Entry(name, false, text);
    ExtractPlaces(s, w, dest, es, k);
  }

  lemma UnpackAt(s: Sys, w: World, dest: Path, es: seq<Entry>, prefix: Path, c: Contents)
    requires Carries(es, prefix, c) && Extract(s, w, dest, es).1
    ensures At(Extract(s, w, dest, es).0.fs, dest + prefix, c)
  {
    var k, q, a := DataName(KV, c.start), DataName(PQ, c.start), DataName(ACL, c.start);
    UnpackMember(s, w, dest, es, prefix + [k], c.kv);
    UnpackMember(s, w, dest, es, prefix + [q], c.pq);
    UnpackMember(s, w, dest, es, prefix + [a], c.acl);
    UnpackMember(s, w, dest, es, prefix + [META], c.meta);
    assert forall n: string :: dest + (prefix + [n]) == dest + prefix + [n];
  }

  // Unpacked where nothing was, it is the only one.
  lemma UnpackSole(s: Sys, w: World, dest: Path, es: seq<Entry>, prefix: Path, start: int)
    requires Only(es, prefix, start) && Sole(w.fs, dest + prefix, start)
    ensures Sole(Extract(s, w, dest, es).0.fs, dest + prefix, start)
  {
    var r := Extract(s, w, dest, es).0;
    forall f: Family, t: int | dest + prefix + [DataName(f, t)] in r.fs.files ensures t == start {
      var p := dest + prefix + [DataName(f, t)];
      if p !in w.fs.files {
        var i := SomeMember(s, w, dest, es, p);
        assert es[i].name == p[|dest|..] == prefix + [DataName(f, t)];
      }
    }
  }

  // A new file is some member's.
  lemma SomeMember(s: Sys, w: World, dest: Path, es: seq<Entry>, p: Path) returns (i: nat)
    requires p !in w.fs.files && p in Extract(s, w, dest, es).0.fs.files
    ensures i < |es| && !es[i].isDir && dest + es[i].name == p
  {
    if k: nat :| k < |es| && !es[k].isDir && dest + es[k].name == p {
      i := k;
    } else {
      ExtractElsewhere(s, w, dest, es, p);
    }
  }

  // Nothing exists at p or below it.
  predicate Fresh(fs: Fs, p: Path) {
    (forall q :: q in fs.files ==> !(p <= q)) && (forall q :: q in fs.dirs ==> !(p <= q))
  }

  // The members of a gzipped tar stream.
  function Inside(s: Sys, data: string): seq<Entry> {
    if s.gunzip(data).None? then [] else s.untar(s.gunzip(data).value).entries
  }

  lemma InsideIs(s: Sys, es: seq<Entry>)
    requires Lawful(s)
    ensures Inside(s, s.gzip(s.tar(es))) == es
  {
    assert s.gunzip(s.gzip(s.tar(es))) == Some(s.tar(es));
    assert s.untar(s.tar(es)) == Tape(es, true);
  }

  // A stream that was cut short unpacks to members of the whole one, perhaps cut
  // short themselves.
  ghost predicate Streaming(s: Sys) {
    forall es: seq<Entry>, k: nat :: k <= |s.gzip(s.tar(es))| ==> Among(Inside(s, s.gzip(s.tar(es))[..k]), es)
  }

  lemma ArchiveMembers(s: Sys, data: string, prefix: Path, c: Contents, sole: bool)
    requires Lawful(s) && IsArchive(s, data, prefix, c, sole)
    ensures var es := Inside(s, data);
            && data == s.gzip(s.tar(es)) && s.gunzip(data) == Some(s.tar(es)) && s.untar(s.tar(es)) == Tape(es, true)
            && Carries(es, prefix, c) && (sole ==> Only(es, prefix, c.start)) && es != []
  {
    var es :| data == s.gzip(s.tar(es)) && Carries(es, prefix, c) && (sole ==> Only(es, prefix, c.start));
    InsideIs(s, es);
    assert s.gunzip(s.gzip(s.tar(es))) == Some(s.tar(es));
  }

  // An archive is one to another process too.
  lemma CalmArchive(s: Sys, z: Sys, data: string, prefix: Path, c: Contents, sole: bool)
    requires Lawful(s) && z == Calm(s, z.cwd) && IsArchive(s, data, prefix, c, sole)
    ensures Lawful(z) && FaultFree(z) && IsArchive(z, data, prefix, c, sole)
  {
    CalmLaws(s, z.cwd);
    ArchiveMembers(s, data, prefix, c, sole);
    assert data == z.gzip(z.tar(Inside(s, data)));
  }

  // ---- Room for an archive's members ----

  // Nothing is in the way of any member: what is there already is of the same
  // kind, as an earlier unpacking of the same archive leaves it, or nothing is.
  predicate Accepts(fs: Fs, q: Path, es: seq<Entry>) { es != [] && AllClear(fs, q, es) }

  lemma AcceptsMkdir(fs: Fs, q: Path, es: seq<Entry>)
    requires Accepts(fs, q, es)
    ensures CanMkdir(fs, q)
  {
    var p := q + es[0].name;
    assert Clear(fs, q, es[0]);
    assert forall k :: 0 <= k <= |q| ==> q[..k] == p[..k];
  }

  // A smaller file system has nothing more in the way.
  lemma AcceptsLess(fs: Fs, fs': Fs, q: Path, es: seq<Entry>)
    requires Accepts(fs, q, es) && fs'.files.Keys <= fs.files.Keys && fs'.dirs <= fs.dirs
    ensures Accepts(fs', q, es)
  {
    forall i | 0 <= i < |es| ensures Clear(fs', q, es[i]) {
      assert Clear(fs, q, es[i]);
    }
  }

  // Making the directory itself, or one above it, is not in the way.
  lemma AcceptsDirs(fs: Fs, q: Path, es: seq<Entry>, a: Path)
    requires Accepts(fs, q, es) && a <= q
    ensures Accepts(AddDirs(fs, a), q, es)
  {
    forall i | 0 <= i < |es| ensures Clear(AddDirs(fs, a), q, es[i]) {
      assert Clear(fs, q, es[i]);
      assert |q + es[i].name| > |q|;
    }
  }

  lemma AcceptsMaking(s: Sys, w: World, q: Path, es: seq<Entry>)
    requires Accepts(w.fs, q, es)
    ensures Accepts(MkdirAt(s, w, q).0.fs, q, es)
  {
    AcceptsDirs(w.fs, q, es, MadeBy(s, w, q));
  }

  // Nor is a file elsewhere.
  lemma AcceptsPut(fs: Fs, q: Path, es: seq<Entry>, p: Path, data: string)
    requires Accepts(fs, q, es) && forall i :: 0 <= i < |es| ==> !(p <= q + es[i].name)
    ensures Accepts(Put(fs, p, data), q, es)
  {
    forall i | 0 <= i < |es| ensures Clear(Put(fs, p, data), q, es[i]) {
      assert Clear(fs, q, es[i]);
      var r := q + es[i].name;
      assert forall k :: 0 <= k <= |r| ==> r[..k] <= r;
    }
  }

  // Nor is any unpacking of the archive, however far it got.
  lemma AcceptsAgain(s: Sys, w: World, q: Path, ds: seq<Entry>, es: seq<Entry>)
    requires Coherent(es) && Among(ds, es) && Accepts(w.fs, q, es)
    ensures Accepts(Extract(s, w, q, ds).0.fs, q, es)
  {
    ExtractKeepsClear(s, w, q, ds, es);
  }

  lemma {:induction false} ExtractDirs(s: Sys, w: World, q: Path, ds: seq<Entry>, p: Path)
    requires forall j :: 0 <= j < |ds| ==> !(p <= q + ds[j].name)
    ensures var r := Extract(s, w, q, ds).0.fs; w.fs.dirs <= r.dirs && (p in r.dirs ==> p in w.fs.dirs)
    decreases |ds|
  {
    if ds != [] {
      var a, _ := ExtractOneDoes(s, w, q, ds[0]);
      assert forall k :: 0 <= k <= |a| ==> a[..k] <= q + ds[0].name;
      ExtractDirs(s, ExtractOne(s, w, q, ds[0]).0, q, ds[1..], p);
    }
  }

  // What an unpacking of an archive, in whole or in part, leaves of the place p
  // beside it and of the room for another.
  lemma ExtractKeepsRoom(s: Sys, w: World, q: Path, ds: seq<Entry>, es: seq<Entry>, p: Path)
    requires Coherent(es) && Among(ds, es) && Accepts(w.fs, q, es) && Tree(w.fs)
    requires p !in w.fs.dirs && forall i :: 0 <= i < |es| ==> !(p <= q + es[i].name)
    ensures var r := Extract(s, w, q, ds).0.fs; Accepts(r, q, es) && p !in r.dirs && w.fs.dirs <= r.dirs && Tree(r)
  {
    forall j | 0 <= j < |ds| ensures !(p <= q + ds[j].name) {
      assert IsMember(ds[j], es);
    }
    ExtractDirs(s, w, q, ds, p);
    AcceptsAgain(s, w, q, ds, es);
    ExtractKeepsTree(s, w, q, ds);
  }

  lemma AmongItself(es: seq<Entry>)
    ensures Among(es, es)
  {
    forall d | d in es ensures IsMember(d, es) {
      var i :| 0 <= i < |es| && es[i] == d;
      assert Same(d, es[i]);
    }
  }

  // A directory where nothing is accepts every archive.
  lemma FreshAccepts(fs: Fs, q: Path, es: seq<Entry>)
    requires CanMkdir(fs, q) && Fresh(fs, q) && es != [] && forall i :: 0 <= i < |es| ==> es[i].name != []
    ensures Accepts(fs, q, es)
  {
    forall i | 0 <= i < |es| ensures Clear(fs, q, es[i]) {
      var p := q + es[i].name;
      forall k | 0 <= k <= |p| ensures p[..k] !in fs.files {
        if k <= |q| {
          assert p[..k] == q[..k];
        } else {
          assert q <= p[..k];
        }
      }
    }
  }

  // ---- Writing one file of a directory ----

  ghost predicate Outside(w: World, r: World) { r.objects == w.objects && r.consul == w.consul }

  // The directory exists and files can be made in it.
  ghost predicate Room(fs: Fs, p: Path) { p in fs.dirs && forall c: string :: p + [c] !in fs.dirs }

  lemma WriteEffect(s: Sys, w: World, dir: string, name: string, data: string)
    requires Simple(name)
    ensures var p := Resolve(s.cwd, dir); var r := Write(s, w, Join(dir, name), data);
            && Outside(w, r.0)
            && (r.1 ==> r.0.alive && r.0.fs == Put(w.fs, p + [name], data))
            && (Smooth(s, w) && Room(w.fs, p) ==> r.1 && Smooth(s, r.0))
  {
    ResolveJoin(s.cwd, dir, name);
    var p := Resolve(s.cwd, dir);
    assert (p + [name])[..|p|] == p;
  }

  lemma ReadEffect(s: Sys, w: World, dir: string, name: string, data: string)
    requires Simple(name) && FaultFree(s) && w.alive
    requires FileAt(w.fs, Resolve(s.cwd, dir) + [name], data)
    ensures Read(s, w, Join(dir, name)) == (Next(s, w), Some(data))
  {
    ResolveJoin(s.cwd, dir, name);
  }

  // ---- Removing what was made ----

  // Without q, and without p and everything below it.
  function Without(fs: Fs, p: Path, q: Path): Fs { Drop(Wipe(fs, p), q) }

  lemma DropWipe(fs: Fs, p: Path, q: Path)
    ensures Wipe(Drop(fs, q), p) == Without(fs, p, q)
  {}

  // What is put in the staging directory goes with it.
  lemma UnderGone(fs: Fs, p: Path, n: string, q: Path, data: string)
    ensures Without(Put(fs, p + [n], data), p, q) == Without(fs, p, q)
  {
    assert p <= p + [n];
  }

  // Of the directories made for the staging directory those above it stay.
  lemma DirsStay(fs: Fs, tmp: Path, a: string, q: Path)
    ensures Without(AddDirs(fs, tmp + [a]), tmp + [a], q) == Without(AddDirs(fs, tmp), tmp + [a], q)
  {
    var p := tmp + [a];
    forall i | 0 <= i <= |p| ensures p[..i] == p || p[..i] in Ancestors(tmp) {
      if i < |p| { assert p[..i] == tmp[..i]; }
    }
    forall i | 0 <= i <= |tmp| ensures tmp[..i] in Ancestors(p) {
      assert tmp[..i] == p[..i];
    }
  }

  lemma Unneeded(fs: Fs, tmp: Path, a: string, b: string)
    requires Fresh(fs, tmp + [a]) && Fresh(fs, tmp + [b])
    ensures Without(AddDirs(fs, tmp), tmp + [a], tmp + [b]) == AddDirs(fs, tmp)
  {
    assert forall i :: 0 <= i <= |tmp| ==> |tmp[..i]| <= |tmp|;
  }

  lemma StagedPuts(fs: Fs, p: Path, c: Contents)
    ensures Put(Put(Put(Put(AddDirs(fs, p), p + [DataName(KV, c.start)], c.kv), p + [DataName(PQ, c.start)], c.pq),
                    p + [DataName(ACL, c.start)], c.acl), p + [META], c.meta) == Staged(fs, p, c)
  {}

  // A staging directory and its files, removed again.
  lemma StagedGone(fs: Fs, tmp: Path, a: string, c: Contents, q: Path)
    ensures Without(Staged(fs, tmp + [a], c), tmp + [a], q) == Without(AddDirs(fs, tmp), tmp + [a], q)
  {
    var p := tmp + [a];
    var k, u, v := DataName(KV, c.start), DataName(PQ, c.start), DataName(ACL, c.start);
    var d1 := Put(AddDirs(fs, p), p + [k], c.kv);
    var d2 := Put(d1, p + [u], c.pq);
    var d3 := Put(d2, p + [v], c.acl);
    UnderGone(AddDirs(fs, p), p, k, q, c.kv);
    UnderGone(d1, p, u, q, c.pq);
    UnderGone(d2, p, v, q, c.acl);
    UnderGone(d3, p, META, q, c.meta);
    StagedPuts(fs, p, c);
    DirsStay(fs, tmp, a, q);
  }

  // ---- Archiving a directory ----

  lemma TarGzEffect(s: Sys, w: World, dest: string, root: string)
    ensures var p := Resolve(s.cwd, dest); var r := TarGzSpec(s, w, dest, root);
            && Outside(w, r.0)
            && (r.1 ==> r.0.alive && CanWrite(w.fs, p)
                        && r.0.fs == Put(w.fs, p, Pack(s, Put(w.fs, p, ""), root)))
            && (Smooth(s, w) && CanWrite(w.fs, p) && Resolve(s.cwd, root) in w.fs.dirs ==> r.1 && Smooth(s, r.0))
  {
    var p := Resolve(s.cwd, dest);
    var fs := Put(w.fs, p, "");
    var data := Pack(s, fs, root);
    assert Put(fs, p, data) == Put(w.fs, p, data);
    WriteOnce(s, w, p, "");
    var n := Next(s, WriteAt(s, w, p, "").0);
    WriteOnce(s, n, p, Pack(s, n.fs, root));
  }

  // Files elsewhere stay when one location is written or dropped.
  lemma AtStays(fs: Fs, p: Path, c: Contents, q: Path, data: string)
    requires At(fs, p, c) && forall n: string :: p + [n] != q
    ensures At(Drop(fs, q), p, c) && At(Put(fs, q, data), p, c)
  {}

  // However it ends, archiving leaves a directory's files alone if the archive is
  // not one of them.
  lemma TarGzKeepsFiles(s: Sys, w: World, dest: string, root: string, p: Path, c: Contents)
    requires At(w.fs, p, c) && forall n: string :: p + [n] != Resolve(s.cwd, dest)
    ensures At(TarGzSpec(s, w, dest, root).0.fs, p, c)
  {
    var q := Resolve(s.cwd, dest);
    var a := WriteAt(s, w, q, "");
    if a.0.fs != w.fs {
      AtStays(w.fs, p, c, q, a.0.fs.files[q]);
    }
    var n := Next(s, a.0);
    var b := WriteAt(s, n, q, Pack(s, n.fs, root));
    if b.0.fs != n.fs {
      AtStays(n.fs, p, c, q, b.0.fs.files[q]);
    }
  }

  // Archiving succeeds exactly if the file can be made, the source exists, and its
  // three calls go through.
  lemma TarGzIff(s: Sys, w: World, dest: string, root: string)
    ensures var p := Resolve(s.cwd, dest); var w1 := Next(s, w); var w2 := Next(s, w1);
            TarGzSpec(s, w, dest, root).1 <==>
              && Up(s, w) && Up(s, w1) && Up(s, w2) && CanWrite(w.fs, p)
              && (Resolve(s.cwd, root) in w.fs.files || Resolve(s.cwd, root) in w.fs.dirs || Resolve(s.cwd, root) == p)
  {}

  lemma WriteOnce(s: Sys, w: World, p: Path, data: string)
    ensures var r := WriteAt(s, w, p, data);
            && Outside(w, r.0)
            && (r.1 ==> r.0.alive && w.alive && CanWrite(w.fs, p) && r.0.fs == Put(w.fs, p, data))
            && (FaultFree(s) && w.alive && CanWrite(w.fs, p) ==> r.1)
  {}

  // What is packed does not depend on a file elsewhere.
  lemma {:induction false} EntriesStay(fs: Fs, fs': Fs, root: Path, prefix: Path, locs: seq<Path>)
    requires forall q :: root <= q ==> (q in fs.dirs <==> q in fs'.dirs) && (q in fs.files <==> q in fs'.files)
    requires forall q :: root <= q && q in fs.files ==> fs.files[q] == fs'.files[q]
    ensures EntriesOf(fs, root, prefix, locs) == EntriesOf(fs', root, prefix, locs)
  {
    if locs != [] {
      EntriesStay(fs, fs', root, prefix, locs[..|locs| - 1]);
    }
  }

  lemma PackStays(s: Sys, fs: Fs, root: string, p: Path, a: string, b: string)
    requires !(Resolve(s.cwd, root) <= p)
    ensures Pack(s, Put(fs, p, a), root) == Pack(s, Put(fs, p, b), root)
  {
    var r := Resolve(s.cwd, root);
    assert Under(Put(fs, p, a), r) == Under(Put(fs, p, b), r);
    EntriesStay(Put(fs, p, a), Put(fs, p, b), r, PrefixOf(s.layout, root), s.order(Under(Put(fs, p, a), r)));
  }

  // An archive made beside the directory it packs.
  lemma TarGzArchive(s: Sys, w: World, dest: string, root: string, c: Contents, sole: bool)
    requires sole ==> Sole(w.fs, Resolve(s.cwd, root), c.start)
    requires Lawful(s) && Tree(w.fs) && At(w.fs, Resolve(s.cwd, root), c)
    requires !(Resolve(s.cwd, root) <= Resolve(s.cwd, dest))
    requires TarGzSpec(s, w, dest, root).1
    ensures var p := Resolve(s.cwd, dest); var r := TarGzSpec(s, w, dest, root);
            && p in r.0.fs.files && r.0.fs == Put(w.fs, p, r.0.fs.files[p])
            && IsArchive(s, r.0.fs.files[p], PrefixOf(s.layout, root), c, sole)
            && r.0.fs.files[p] == Pack(s, r.0.fs, root)
  {
    TarGzEffect(s, w, dest, root);
    var p := Resolve(s.cwd, dest);
    PutTree(w.fs, p, "");
    assert forall n: string :: Resolve(s.cwd, root) <= Resolve(s.cwd, root) + [n];
    assert sole ==> Sole(Put(w.fs, p, ""), Resolve(s.cwd, root), c.start);
    PackCarries(s, Put(w.fs, p, ""), root, c, sole);
    PackStays(s, w.fs, root, p, "", Pack(s, Put(w.fs, p, ""), root));
  }
}
