/**
 Repeating a legacy restore that had failures, died or was torn half-way: nothing
 it can leave on the disk is in the way of another.
 */
module LegacyRetry {
  import opened Wrappers
  import opened Paths
  import opened Names
  import opened World
  import opened Config
  import opened Archiver
  import opened ArchiveFacts
  import opened Snapshots
  import opened LegacyRestore
  import opened LegacyRestoreFacts
  import opened LegacyTrip
  import Crypt

  // What a restore needs of the disk.
  predicate Roomy(fs: Fs, q: Path, at: Path, es: seq<Entry>) { Accepts(fs, q, es) && at !in fs.dirs }

  // The archive's members belong beside the archive.
  ghost predicate Apart(q: Path, at: Path, es: seq<Entry>) {
    Coherent(es) && |at| == |q| + 1 && at[..|q|] == q && forall i :: 0 <= i < |es| ==> !(at <= q + es[i].name)
  }

  // ---- Each step keeps it, under any schedule ----

  lemma MkdirKeepsRoom(s: Sys, w: World, q: Path, at: Path, es: seq<Entry>)
    requires Roomy(w.fs, q, at, es) && Apart(q, at, es)
    ensures Roomy(MkdirAt(s, w, q).0.fs, q, at, es)
  {
    AcceptsMaking(s, w, q, es);
    assert at !in Ancestors(MadeBy(s, w, q));
  }

  lemma WriteKeepsRoom(s: Sys, w: World, q: Path, at: Path, es: seq<Entry>, data: string)
    requires Roomy(w.fs, q, at, es) && Apart(q, at, es)
    ensures Roomy(WriteAt(s, w, at, data).0.fs, q, at, es)
  {
    var fs := WriteAt(s, w, at, data).0.fs;
    if fs != w.fs {
      AcceptsPut(w.fs, q, es, at, fs.files[at]);
    }
  }

  lemma FetchKeepsRoom(s: Sys, w: World, cfg: Config, key: string, local: string, q: Path, at: Path, es: seq<Entry>)
    requires Roomy(w.fs, q, at, es) && Apart(q, at, es) && at == Resolve(s.cwd, local)
    ensures Roomy(FetchSpec(s, w, cfg, key, local).0.fs, q, at, es)
  {
    var k := (BucketOf(cfg), key);
    if k in w.objects {
      if |cfg.gcsBucket| < 1 {
        WriteKeepsRoom(s, w, q, at, es, w.objects[k]);
      } else {
        var c := ReadRest(s, Download(s, w, k.0, key).0, w.objects[k]);
        WriteKeepsRoom(s, c.0, q, at, es, c.1);
      }
    }
  }

  lemma RemoteKeepsRoom(s: Sys, w: World, cfg: Config, key: string, local: string, q: Path, at: Path, es: seq<Entry>)
    requires Roomy(w.fs, q, at, es) && Apart(q, at, es)
    requires local == LocalPath(cfg, key) && q == Resolve(s.cwd, Dir(local)) && at == Resolve(s.cwd, local)
    ensures Roomy(RemoteSpec(s, w, cfg, NewDraft(key)).0.fs, q, at, es)
  {
    var m := MkdirAt(s, w, q);
    MkdirKeepsRoom(s, w, q, at, es);
    var a := WriteAt(s, m.0, at, "");
    WriteKeepsRoom(s, m.0, q, at, es, "");
    FetchKeepsRoom(s, a.0, cfg, key, local, q, at, es);
  }

  // The front of a gzip stream is no container, so nothing is decrypted.
  lemma FrontIsNotDecrypted(s: Sys, w: World, cfg: Config, d: Draft, at: Path, data: string)
    requires Lawful(s) && s.gunzip(data).Some? && at == Resolve(s.cwd, d.localFilePath) && Front(w.fs, at, data)
    ensures DecryptStepSpec(s, w, cfg, d).0.fs == w.fs
  {
    assert data[0] != Crypt.PREFIX[0];
    assert !Crypt.IsContainer(w.fs.files[at]);
  }

  lemma ExtractKeepsRoomHere(s: Sys, w: World, q: Path, at: Path, ds: seq<Entry>, es: seq<Entry>)
    requires Roomy(w.fs, q, at, es) && Apart(q, at, es) && Among(ds, es)
    ensures Roomy(Extract(s, w, q, ds).0.fs, q, at, es)
  {
    AcceptsAgain(s, w, q, ds, es);
    forall j | 0 <= j < |ds| ensures !(at <= q + ds[j].name) {
      assert IsMember(ds[j], es);
    }
    ExtractDirs(s, w, q, ds, at);
  }

  lemma UnTarGzKeepsRoom(s: Sys, w: World, d: Draft, q: Path, at: Path, es: seq<Entry>, data: string)
    requires Lawful(s) && Streaming(s) && data == s.gzip(s.tar(es)) && Front(w.fs, at, data)
    requires Roomy(w.fs, q, at, es) && Apart(q, at, es)
    requires q == Resolve(s.cwd, Dir(d.localFilePath)) && at == Resolve(s.cwd, d.localFilePath)
    ensures Roomy(ExtractSpec(s, w, d).0.fs, q, at, es)
  {
    var front := w.fs.files[at];
    assert front == data[..|front|];
    assert Among(Inside(s, s.gzip(s.tar(es))[..|front|]), es);
    ExtractKeepsRoomHere(s, Next(s, w), q, at, Inside(s, front), es);
  }

  lemma LoadDataReads(s: Sys, w: World, d: Draft)
    ensures LoadDataSpec(s, w, d).0.fs == w.fs
  {
    ReadFamilyFrame(s, w, d, KV);
    var k := LoadKVSpec(s, w, d);
    ReadFamilyFrame(s, k.0, k.1, PQ);
    var p := LoadPQSpec(s, k.0, k.1);
    ReadFamilyFrame(s, p.0, p.1, ACL);
  }

  lemma ParseV1Reads(s: Sys, w: World, d: Draft)
    ensures ParseV1Spec(s, w, d).0.fs == w.fs
  {}

  lemma InspectReads(s: Sys, w: World, d: Draft)
    ensures InspectSpec(s, w, d).0.fs == w.fs
  {
    var d1 := d.(extractedPath := StripSuffixes(d.localFilePath));
    ParseV1Reads(s, Read(s, w, Join(d1.extractedPath, META)).0, d1);
  }

  lemma InspectAndLoadReads(s: Sys, w: World, d: Draft)
    ensures InspectAndLoadSpec(s, w, d).0.fs == w.fs
  {
    InspectReads(s, w, d);
    var i := InspectSpec(s, w, d);
    LoadDataReads(s, i.0, i.1);
  }

  lemma UnpackDisk(s: Sys, w: World, d: Draft, x: (World, bool))
    requires x == ExtractSpec(s, w, d)
    ensures UnpackSpec(s, w, d).0.fs == x.0.fs
  {
    InspectAndLoadReads(s, x.0, d);
  }

  lemma UnpackKeepsRoom(s: Sys, w: World, d: Draft, q: Path, at: Path, es: seq<Entry>, data: string)
    requires Lawful(s) && Streaming(s) && data == s.gzip(s.tar(es)) && Front(w.fs, at, data)
    requires Roomy(w.fs, q, at, es) && Apart(q, at, es)
    requires q == Resolve(s.cwd, Dir(d.localFilePath)) && at == Resolve(s.cwd, d.localFilePath)
    ensures Roomy(UnpackSpec(s, w, d).0.fs, q, at, es)
  {
    UnTarGzKeepsRoom(s, w, d, q, at, es, data);
    UnpackDisk(s, w, d, ExtractSpec(s, w, d));
  }

  lemma OpenDisk(s: Sys, w: World, cfg: Config, d: Draft, e: (World, bool))
    requires e == DecryptStepSpec(s, w, cfg, d)
    ensures OpenSpec(s, w, cfg, d).0.fs == if e.1 then UnpackSpec(s, e.0, d).0.fs else e.0.fs
  {}

  lemma OpenKeepsRoom(s: Sys, w: World, cfg: Config, d: Draft, q: Path, at: Path, es: seq<Entry>, data: string,
                      e: (World, bool))
    requires Lawful(s) && Streaming(s) && data == s.gzip(s.tar(es)) && s.gunzip(data).Some? && Front(w.fs, at, data)
    requires Roomy(w.fs, q, at, es) && Apart(q, at, es) && e == DecryptStepSpec(s, w, cfg, d)
    requires q == Resolve(s.cwd, Dir(d.localFilePath)) && at == Resolve(s.cwd, d.localFilePath)
    ensures Roomy(OpenSpec(s, w, cfg, d).0.fs, q, at, es)
  {
    FrontIsNotDecrypted(s, w, cfg, d, at, data);
    UnpackKeepsRoom(s, e.0, d, q, at, es, data);
    OpenDisk(s, w, cfg, d, e);
  }

  lemma LoadKeepsRoom(s: Sys, w: World, cfg: Config, key: string, local: string, q: Path, at: Path, es: seq<Entry>,
                      data: string)
    requires Lawful(s) && Streaming(s) && data == s.gzip(s.tar(es)) && !cfg.acceptance
    requires Roomy(w.fs, q, at, es) && Apart(q, at, es)
    requires local == LocalPath(cfg, key) && q == Resolve(s.cwd, Dir(local)) && at == Resolve(s.cwd, local)
    requires (BucketOf(cfg), key) in w.objects && data == w.objects[(BucketOf(cfg), key)]
    ensures Roomy(LoadSpec(s, w, cfg, key).0.fs, q, at, es)
  {
    RemoteKeepsRoom(s, w, cfg, key, local, q, at, es);
    RemoteFront(s, w, cfg, key, at, data);
    var l := LocateSpec(s, w, cfg, NewDraft(key));
    if l.2 {
      assert s.gunzip(s.gzip(s.tar(es))) == Some(s.tar(es));
      OpenKeepsRoom(s, l.0, cfg, l.1, q, at, es, data, DecryptStepSpec(s, l.0, cfg, l.1));
    }
  }

  lemma RunKeepsRoom(s: Sys, w: World, cfg: Config, key: string, q: Path, at: Path, es: seq<Entry>, data: string)
    requires Lawful(s) && Streaming(s) && data == s.gzip(s.tar(es)) && !cfg.acceptance
    requires Roomy(w.fs, q, at, es) && Apart(q, at, es)
    requires q == Resolve(s.cwd, Dir(LocalPath(cfg, key))) && at == Resolve(s.cwd, LocalPath(cfg, key))
    requires (BucketOf(cfg), key) in w.objects && data == w.objects[(BucketOf(cfg), key)]
    ensures var r := DoWorkSpec(s, w, cfg, key).0; Roomy(r.fs, q, at, es) && r.objects == w.objects
  {
    LoadKeepsRoom(s, w, cfg, key, LocalPath(cfg, key), q, at, es, data);
    DoWorkMeaning(s, w, cfg, key);
    var l := LoadSpec(s, w, cfg, key);
    RestoreKVAttempts(s, l.0, l.1.jsonData.Elems());
  }

  // ---- Another run ----

  lemma SameLaws(s: Sys, z: Sys)
    requires s == z.(fault := s.fault) && Lawful(z) && Streaming(z)
    ensures Lawful(s) && Streaming(s)
  {}

  // After a run under any schedule, in a new process, another can be made.
  lemma ReadyAgain(s: Sys, z: Sys, w: World, cfg: Config, key: string, dir: string, base: string, data: string,
                   c: Contents, r: World)
    requires Lawful(z) && Streaming(z) && Spelled(cfg, key, dir, base) && Ready(z, w, cfg, key, dir, base)
    requires data == w.objects[(BucketOf(cfg), key)] && IsArchive(z, data, [base], c, false)
    requires s == z.(fault := s.fault) && r == DoWorkSpec(s, w, cfg, key).0
    ensures Ready(z, r.(alive := true), cfg, key, dir, base) && r.objects == w.objects
  {
    var q, es := Resolve(z.cwd, dir), Inside(z, data);
    var at := q + [base + TAR_GZ];
    SameLaws(s, z);
    Site(z.cwd, dir, base, dir + "/" + base);
    ArchiveMembers(z, data, [base], c, false);
    assert |base + TAR_GZ| == |base| + 7;
    NotAboveMembers(q, base, base + TAR_GZ, es);
    assert at[..|q|] == q;
    RunKeepsRoom(s, w, cfg, key, q, at, es, data);
  }
}
