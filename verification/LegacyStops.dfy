/**
 Where a legacy restore stops, from the bytes in the bucket and on the disk: every
 stop ends the process and leaves Consul alone.
 */
module LegacyStops {
  import opened Wrappers
  import opened Paths
  import opened Text
  import opened Names
  import opened Records
  import opened Metadata
  import opened World
  import opened Config
  import opened Archiver
  import opened Snapshots
  import opened LegacyRestore
  import opened LegacyRestoreFacts
  import opened LegacyTrip
  import Crypt

  // ---- Every stop ends the process ----

  lemma LocateStopsDead(s: Sys, w: World, cfg: Config, d: Draft)
    ensures !LocateSpec(s, w, cfg, d).2 ==> !LocateSpec(s, w, cfg, d).0.alive
  {}

  lemma ExtractStopsDead(s: Sys, w: World, d: Draft)
    ensures !ExtractSpec(s, w, d).1 ==> !ExtractSpec(s, w, d).0.alive
  {}

  lemma InspectStopsDead(s: Sys, w: World, d: Draft)
    ensures !InspectSpec(s, w, d).2 ==> !InspectSpec(s, w, d).0.alive
  {}

  lemma LoadDataStopsDead(s: Sys, w: World, d: Draft)
    ensures !LoadDataSpec(s, w, d).2 ==> !LoadDataSpec(s, w, d).0.alive
  {}

  lemma UnpackStopsDead(s: Sys, w: World, d: Draft)
    ensures !UnpackSpec(s, w, d).2 ==> !UnpackSpec(s, w, d).0.alive
  {
    ExtractStopsDead(s, w, d);
    var x := ExtractSpec(s, w, d);
    InspectStopsDead(s, x.0, d);
    var i := InspectSpec(s, x.0, d);
    LoadDataStopsDead(s, i.0, i.1);
  }

  // Under any schedule: a restore that does not come to its replay ends the process,
  // and Consul and the buckets are as they were.
  lemma StopsDead(s: Sys, w: World, cfg: Config, key: string)
    ensures var r := DoWorkSpec(s, w, cfg, key); r.1 == None ==> !r.0.alive && Outside(w, r.0)
  {
    LoadFrame(s, w, cfg, key);
    LocateStopsDead(s, w, cfg, NewDraft(key));
    var l := LocateSpec(s, w, cfg, NewDraft(key));
    DecryptStopsDead(s, l.0, cfg, l.1);
    UnpackStopsDead(s, DecryptStepSpec(s, l.0, cfg, l.1).0, l.1);
  }

  // ---- Fetching ----

  // Without the object there is nothing to restore.
  lemma MissingObjectStops(s: Sys, w: World, cfg: Config, key: string)
    requires !cfg.acceptance
    requires (BucketOf(cfg), key) !in w.objects
    ensures DoWorkSpec(s, w, cfg, key).1 == None
  {
    RemoteMissing(s, w, cfg, key);
  }

  lemma FetchMissing(s: Sys, w: World, cfg: Config, key: string, local: string)
    requires (BucketOf(cfg), key) !in w.objects
    ensures !FetchSpec(s, w, cfg, key, local).1
  {}

  lemma RemoteMissing(s: Sys, w: World, cfg: Config, key: string)
    requires (BucketOf(cfg), key) !in w.objects
    ensures !RemoteSpec(s, w, cfg, NewDraft(key)).2
  {
    if CanCreate(s, w, cfg, key) {
      Created(s, w, cfg, key);
      FetchMissing(s, Begun(s, w, cfg, key), cfg, key, LocalPath(cfg, key));
    } else {
      NotCreated(s, w, cfg, key);
    }
  }

  // The directory and the empty file that a fetch begins with can be made.
  predicate CanCreate(s: Sys, w: World, cfg: Config, key: string) {
    var q, at := Resolve(s.cwd, Dir(LocalPath(cfg, key))), Resolve(s.cwd, LocalPath(cfg, key));
    Up(s, w) && CanMkdir(w.fs, q) && Up(s, Next(s, w)) && CanWrite(AddDirs(w.fs, q), at)
  }

  // A run gets past the fetch exactly if directory and file can be made, the object is
  // there, and the calls that get it and write it go through. Whether a GCS object was
  // read to its end does not matter.
  lemma FetchingIff(s: Sys, w: World, cfg: Config, key: string)
    requires !cfg.acceptance
    ensures var w2 := Next(s, Next(s, w));
            LocateSpec(s, w, cfg, NewDraft(key)).2 <==>
              && CanCreate(s, w, cfg, key)
              && (BucketOf(cfg), key) in w.objects
              && Up(s, w2) && (cfg.gcsBucket == "" || Up(s, Next(s, Next(s, w2))))
  {
    if CanCreate(s, w, cfg, key) {
      Created(s, w, cfg, key);
      FetchIff(s, Begun(s, w, cfg, key), cfg, key, LocalPath(cfg, key));
    } else {
      NotCreated(s, w, cfg, key);
    }
  }

  // What a fetch begins with, once made.
  function Begun(s: Sys, w: World, cfg: Config, key: string): World {
    var q, at := Resolve(s.cwd, Dir(LocalPath(cfg, key))), Resolve(s.cwd, LocalPath(cfg, key));
    Next(s, Next(s, w)).(fs := Put(AddDirs(w.fs, q), at, ""))
  }

  lemma Created(s: Sys, w: World, cfg: Config, key: string)
    requires CanCreate(s, w, cfg, key)
    ensures var r := FetchSpec(s, Begun(s, w, cfg, key), cfg, key, LocalPath(cfg, key));
            var l := RemoteSpec(s, w, cfg, NewDraft(key));
            l.2 == r.1 && l.0.fs == r.0.fs
    ensures CanWrite(Begun(s, w, cfg, key).fs, Resolve(s.cwd, LocalPath(cfg, key)))
  {}

  lemma NotCreated(s: Sys, w: World, cfg: Config, key: string)
    requires !CanCreate(s, w, cfg, key)
    ensures !RemoteSpec(s, w, cfg, NewDraft(key)).2
  {}

  lemma FetchIff(s: Sys, w: World, cfg: Config, key: string, local: string)
    requires CanWrite(w.fs, Resolve(s.cwd, local))
    ensures FetchSpec(s, w, cfg, key, local).1 <==>
              && (BucketOf(cfg), key) in w.objects
              && Up(s, w) && (cfg.gcsBucket == "" || Up(s, Next(s, Next(s, w))))
  {}

  // A fetch of an object that is not there, or that the store refuses, leaves the
  // empty file behind.
  lemma FailedFetchLeavesEmpty(s: Sys, w: World, cfg: Config, key: string)
    requires !cfg.acceptance && CanCreate(s, w, cfg, key)
    requires s.fault(w.calls + 2) == Fails ||
             (BucketOf(cfg), key) !in w.objects
    ensures var at := Resolve(s.cwd, LocalPath(cfg, key)); var r := DoWorkSpec(s, w, cfg, key);
            r.1 == None && at in r.0.fs.files && r.0.fs.files[at] == ""
  {
    Created(s, w, cfg, key);
    RefusedFetch(s, Begun(s, w, cfg, key), cfg, key, LocalPath(cfg, key));
  }

  lemma RefusedFetch(s: Sys, w: World, cfg: Config, key: string, local: string)
    requires s.fault(w.calls) == Fails ||
             (BucketOf(cfg), key) !in w.objects
    ensures var r := FetchSpec(s, w, cfg, key, local); !r.1 && r.0.fs == w.fs
  {}

  // A GCS download that breaks off is not noticed: the file is left short, and the
  // run goes on.
  lemma ShortFetchGoesOn(s: Sys, w: World, cfg: Config, key: string, local: string, n: nat)
    requires cfg.gcsBucket != "" && w.alive && FineFrom(s, w.calls + 2) && s.fault(w.calls) == Fine
    requires s.fault(w.calls + 1).Torn? && n == s.fault(w.calls + 1).kept
    requires var k := (Bucket(GCS, cfg.gcsBucket), key); k in w.objects && n <= |w.objects[k]|
    requires CanWrite(w.fs, Resolve(s.cwd, local))
    ensures var r := FetchSpec(s, w, cfg, key, local);
            r.1 && r.0.fs == Put(w.fs, Resolve(s.cwd, local), w.objects[(Bucket(GCS, cfg.gcsBucket), key)][..n])
  {}

  // ---- Decrypting ----

  // A run stops at the decryption exactly if the file is not read, or is a container
  // for which there is no passphrase, or one that is read again and too short to be
  // cut. A container that does not open does not stop it.
  lemma DecryptingIff(s: Sys, w: World, cfg: Config, d: Draft)
    ensures var p := Resolve(s.cwd, d.localFilePath);
            DecryptStepSpec(s, w, cfg, d).1 <==>
              Legible(s, w, p) &&
              (Crypt.IsContainer(w.fs.files[p]) ==>
                 cfg.encryption != "" && (Legible(s, Next(s, w), p) ==> |w.fs.files[p]| >= Crypt.HEADER_LEN))
  {}

  // ---- Unpacking ----

  // A file that is no intact archive ends the run, unless it is a container.
  lemma DamagedFileStops(s: Sys, w: World, cfg: Config, d: Draft)
    requires var p := Resolve(s.cwd, d.localFilePath);
             p in w.fs.files ==> !Intact(s, w.fs.files[p]) && !Crypt.IsContainer(w.fs.files[p])
    ensures !OpenSpec(s, w, cfg, d).2
  {
    var e := DecryptStepSpec(s, w, cfg, d);
    if e.1 {
      assert e.0.fs == w.fs;
      DamagedRefused(s, e.0, d.localFilePath, Dir(d.localFilePath));
    }
  }

  // Under any schedule: an object that is no intact archive (and no container) is
  // never unpacked. From GCS, whose read error is dropped, that is so of objects of
  // which no front is an intact archive, or if no read breaks off.
  lemma DamagedStops(s: Sys, w: World, cfg: Config, key: string, data: string)
    requires Lawful(s) && !cfg.acceptance
    requires (BucketOf(cfg), key) in w.objects && data == w.objects[(BucketOf(cfg), key)]
    requires (s.gunzip(data) == None || !s.untar(s.gunzip(data).value).clean) && !HasPrefix(data, "v0:")
    requires cfg.gcsBucket == "" || (forall i: nat :: !s.fault(i).Torn?) ||
             (forall n: nat :: n <= |data| ==> !Intact(s, data[..n]))
    ensures var r := DoWorkSpec(s, w, cfg, key); r.1 == None && !r.0.alive && Outside(w, r.0)
  {
    var at := Resolve(s.cwd, LocalPath(cfg, key));
    RemoteFront(s, w, cfg, key, at, data);
    var l := LocateSpec(s, w, cfg, NewDraft(key));
    if l.2 {
      FetchedIsDamaged(s, w, cfg, key, at, data);
      DamagedFileStops(s, l.0, cfg, l.1);
    }
    StopsDead(s, w, cfg, key);
  }

  lemma NoFrontIsContainer(data: string, f: string)
    requires f <= data && !HasPrefix(data, Crypt.PREFIX)
    ensures !Crypt.IsContainer(f)
  {}

  // What a fetch that is not fatal leaves: the object, or from GCS, when its read did
  // not go through, the front of it or nothing.
  lemma FetchLeaves(s: Sys, w: World, cfg: Config, key: string, local: string, at: Path, data: string)
    requires (BucketOf(cfg), key) in w.objects && data == w.objects[(BucketOf(cfg), key)] && at == Resolve(s.cwd, local)
    ensures var r := FetchSpec(s, w, cfg, key, local);
            r.1 ==>
            && Front(r.0.fs, at, data)
            && (cfg.gcsBucket == "" || (forall i: nat :: !s.fault(i).Torn?) ==>
                  r.0.fs.files[at] == data || r.0.fs.files[at] == "")
  {}

  lemma RemoteLeaves(s: Sys, w: World, cfg: Config, key: string, at: Path, data: string)
    requires at == Resolve(s.cwd, LocalPath(cfg, key))
    requires (BucketOf(cfg), key) in w.objects && data == w.objects[(BucketOf(cfg), key)]
    ensures var r := RemoteSpec(s, w, cfg, NewDraft(key));
            r.2 ==>
            && Front(r.0.fs, at, data)
            && (cfg.gcsBucket == "" || (forall i: nat :: !s.fault(i).Torn?) ==>
                  r.0.fs.files[at] == data || r.0.fs.files[at] == "")
  {
    var local := LocalPath(cfg, key);
    FetchLeaves(s, Write(s, Mkdir(s, w, Dir(local)).0, local, "").0, cfg, key, local, at, data);
  }

  lemma FetchedIsDamaged(s: Sys, w: World, cfg: Config, key: string, at: Path, data: string)
    requires Lawful(s) && at == Resolve(s.cwd, LocalPath(cfg, key)) && !HasPrefix(data, "v0:") && !Intact(s, data)
    requires (BucketOf(cfg), key) in w.objects && data == w.objects[(BucketOf(cfg), key)]
    requires cfg.gcsBucket == "" || (forall i: nat :: !s.fault(i).Torn?) ||
             (forall n: nat :: n <= |data| ==> !Intact(s, data[..n]))
    ensures var r := RemoteSpec(s, w, cfg, NewDraft(key));
            r.2 && at in r.0.fs.files ==> !Intact(s, r.0.fs.files[at]) && !Crypt.IsContainer(r.0.fs.files[at])
  {
    var r := RemoteSpec(s, w, cfg, NewDraft(key));
    RemoteLeaves(s, w, cfg, key, at, data);
    if r.2 {
      var f := r.0.fs.files[at];
      NoFrontIsContainer(data, f);
      assert f == data[..|f|];
      assert s.gunzip("") == None;
    }
  }

  // A first-generation backup is gzipped JSON. It is not a tar stream, so unpacking
  // it ends the process before the fallback for it is reached.
  lemma FirstGenerationStops(s: Sys, w: World, cfg: Config, key: string, json: string)
    requires Lawful(s) && !cfg.acceptance && cfg.gcsBucket == ""
    requires (BucketOf(cfg), key) in w.objects && w.objects[(BucketOf(cfg), key)] == s.gzip(json)
    requires !s.untar(json).clean
    ensures var r := DoWorkSpec(s, w, cfg, key); r.1 == None && Outside(w, r.0)
  {
    var data := s.gzip(json);
    assert s.gunzip(data) == Some(json);
    Crypt.GzipIsNoContainer(s, data);
    DamagedStops(s, w, cfg, key, data);
  }

  // ---- Inspecting and loading ----

  // The three files a snapshot's metadata points to, by three calls from w on.
  predicate AllLoad(s: Sys, w: World, q: Path, start: int) {
    var w1 := Next(s, w); var w2 := Next(s, w1);
    var k, p, a := q + [DataName(KV, start)], q + [DataName(PQ, start)], q + [DataName(ACL, start)];
    && Legible(s, w, k) && UnmarshalKVs(w.fs.files[k]).Some?
    && Legible(s, w1, p) && UnmarshalPQs(w.fs.files[p]).Some?
    && Legible(s, w2, a) && UnmarshalACLs(w.fs.files[a]).Some?
  }

  lemma ReadsFamily(s: Sys, w: World, d: Draft, f: Family)
    ensures var p := Resolve(s.cwd, d.extractedPath) + [DataName(f, d.start)];
            ReadFamilySpec(s, w, d, f) == (Next(s, w), if Legible(s, w, p) then Some(w.fs.files[p]) else None)
  {
    DataNameSimple(f, d.start);
    ResolveJoin(s.cwd, d.extractedPath, DataName(f, d.start));
  }

  lemma LoadsIff(s: Sys, w: World, d: Draft)
    requires d.version != V1
    ensures var q := Resolve(s.cwd, d.extractedPath); var r := LoadDataSpec(s, w, d);
            && (r.2 <==> AllLoad(s, w, q, d.start))
            && (r.2 ==> UnmarshalKVs(w.fs.files[q + [DataName(KV, d.start)]]) == Some(r.1.jsonData))
  {
    ReadsFamily(s, w, d, KV);
    var k := LoadKVSpec(s, w, d);
    ReadsFamily(s, k.0, k.1, PQ);
    var p := LoadPQSpec(s, k.0, k.1);
    ReadsFamily(s, p.0, p.1, ACL);
  }

  // The archive is fetched, decrypted and unpacked.
  ghost predicate Unpacked(s: Sys, w: World, cfg: Config, key: string, l: (World, Draft, bool), e: (World, bool),
                           x: (World, bool)) {
    && l == LocateSpec(s, w, cfg, NewDraft(key)) && l.2
    && e == DecryptStepSpec(s, l.0, cfg, l.1) && e.1
    && x == ExtractSpec(s, e.0, l.1) && x.1
  }

  lemma UnpackedLoads(s: Sys, w: World, cfg: Config, key: string, l: (World, Draft, bool), e: (World, bool),
                      x: (World, bool))
    requires Unpacked(s, w, cfg, key, l, e, x)
    ensures LoadSpec(s, w, cfg, key) == InspectAndLoadSpec(s, x.0, l.1)
  {}

  lemma LocatedBlank(s: Sys, w: World, cfg: Config, key: string)
    ensures LocateSpec(s, w, cfg, NewDraft(key)).1.jsonData == Nil
  {}

  // Where the metadata is looked for.
  function MetaAt(s: Sys, d: Draft): Path { Resolve(s.cwd, Join(StripSuffixes(d.localFilePath), META)) }

  lemma DescribedLoads(s: Sys, w: World, d: Draft, m: Meta)
    requires Legible(s, w, MetaAt(s, d)) && UnmarshalLegacyMeta(w.fs.files[MetaAt(s, d)]) == Some(m)
    requires d.jsonData == Nil
    ensures var q := Resolve(s.cwd, StripSuffixes(d.localFilePath)); var r := InspectAndLoadSpec(s, w, d);
            && (r.2 <==> m.version == V1 || AllLoad(s, Next(s, w), q, m.start))
            && (r.2 && m.version == V1 ==> r.1.jsonData == Nil)
            && (r.2 && m.version != V1 ==>
                  UnmarshalKVs(w.fs.files[q + [DataName(KV, m.start)]]) == Some(r.1.jsonData))
  {
    var d1 := d.(extractedPath := StripSuffixes(d.localFilePath), version := m.version, start := m.start);
    if m.version != V1 {
      LoadsIff(s, Next(s, w), d1);
    }
  }

  // Under any schedule, once the archive is unpacked and its metadata read: a run
  // comes to its replay exactly if the metadata parses and, unless its version is
  // "0.0.1", each of the three files it points to is read and parses.
  lemma LoadingIff(s: Sys, w: World, cfg: Config, key: string, l: (World, Draft, bool), e: (World, bool),
                   x: (World, bool))
    requires Unpacked(s, w, cfg, key, l, e, x) && Legible(s, x.0, MetaAt(s, l.1))
    ensures var q := Resolve(s.cwd, StripSuffixes(l.1.localFilePath));
            var m := UnmarshalLegacyMeta(x.0.fs.files[MetaAt(s, l.1)]);
            DoWorkSpec(s, w, cfg, key).1.Some? <==>
              m.Some? && (m.value.version == V1 || AllLoad(s, Next(s, x.0), q, m.value.start))
  {
    UnpackedLoads(s, w, cfg, key, l, e, x);
    LocatedBlank(s, w, cfg, key);
    var m := UnmarshalLegacyMeta(x.0.fs.files[MetaAt(s, l.1)]);
    if m.Some? {
      DescribedLoads(s, x.0, l.1, m.value);
    } else {
      UndescribedStops(s, x.0, l.1);
    }
    ReplayIff(s, w, cfg, key);
  }

  lemma UndescribedStops(s: Sys, w: World, d: Draft)
    requires Legible(s, w, MetaAt(s, d)) && UnmarshalLegacyMeta(w.fs.files[MetaAt(s, d)]) == None
    ensures !InspectAndLoadSpec(s, w, d).2
  {}

  lemma ReplayIff(s: Sys, w: World, cfg: Config, key: string)
    ensures DoWorkSpec(s, w, cfg, key).1.Some? <==> LoadSpec(s, w, cfg, key).2
  {}

  // Without metadata the archive itself is taken for a first-generation backup: the
  // run goes on exactly if it unzips to a list of pairs, and those are the pairs.
  lemma FallbackIff(s: Sys, w: World, cfg: Config, key: string, l: (World, Draft, bool), e: (World, bool),
                    x: (World, bool))
    requires Unpacked(s, w, cfg, key, l, e, x) && !Legible(s, x.0, MetaAt(s, l.1))
    ensures var p := Resolve(s.cwd, l.1.localFilePath); var r := LoadSpec(s, w, cfg, key);
            && (DoWorkSpec(s, w, cfg, key).1.Some? <==>
                  Legible(s, Next(s, x.0), p) && s.gunzip(x.0.fs.files[p]).Some? &&
                  UnmarshalKVs(s.gunzip(x.0.fs.files[p]).value).Some?)
            && (r.2 ==> UnmarshalKVs(s.gunzip(x.0.fs.files[p]).value) == Some(r.1.jsonData))
  {
    UnpackedLoads(s, w, cfg, key, l, e, x);
    FallbackLoads(s, x.0, l.1);
    ReplayIff(s, w, cfg, key);
  }

  lemma FallbackLoads(s: Sys, w: World, d: Draft)
    requires !Legible(s, w, MetaAt(s, d))
    ensures var p := Resolve(s.cwd, d.localFilePath); var r := InspectAndLoadSpec(s, w, d);
            && (r.2 <==> Legible(s, Next(s, w), p) && s.gunzip(w.fs.files[p]).Some? &&
                         UnmarshalKVs(s.gunzip(w.fs.files[p]).value).Some?)
            && (r.2 ==> UnmarshalKVs(s.gunzip(w.fs.files[p]).value) == Some(r.1.jsonData))
  {}
}
