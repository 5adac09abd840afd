/**
 adapters/archiver.go, and the archiving steps of the legacy pair: a directory
 becomes a gzipped tar stream and is unpacked entry by entry.
 */
module Archiver {
  import opened Wrappers
  import opened Paths
  import opened World
  import opened Env

  // ---- What the two operations do ----

  function Under(fs: Fs, root: Path): set<Path> {
    set q | q in fs.files.Keys + fs.dirs && root <= q
  }

  // A location becomes a member named after its path from the root; with an
  // empty prefix the root itself has no name and is skipped.
  function EntryOf(fs: Fs, root: Path, prefix: Path, q: Path): seq<Entry> {
    if !(root <= q) || prefix + q[|root|..] == [] then []
    else [Entry(prefix + q[|root|..], q in fs.dirs, if q in fs.files then fs.files[q] else "")]
  }

  function EntriesOf(fs: Fs, root: Path, prefix: Path, locs: seq<Path>): seq<Entry> {
    if locs == [] then []
    else EntriesOf(fs, root, prefix, locs[..|locs| - 1]) + EntryOf(fs, root, prefix, locs[|locs| - 1])
  }

  function PrefixOf(layout: Layout, root: string): Path {
    if layout.Flat? then [] else [Base(root)]
  }

  // The archive of a directory, as the current file system has it.
  function Pack(s: Sys, fs: Fs, root: string): string {
    var r := Resolve(s.cwd, root);
    s.gzip(s.tar(EntriesOf(fs, r, PrefixOf(s.layout, root), s.order(Under(fs, r)))))
  }

  predicate Exists(fs: Fs, p: Path) { p in fs.files || p in fs.dirs }

  // Create the file, walk the source, write the stream.
  function TarGzSpec(s: Sys, w: World, dest: string, root: string): (World, bool) {
    var a := Write(s, w, dest, "");
    if !a.1 then a
    else
      var n := Next(s, a.0);
      if !(Up(s, a.0) && Exists(n.fs, Resolve(s.cwd, root))) then (n, false)
      else Write(s, n, dest, Pack(s, n.fs, root))
  }

  function ExtractOne(s: Sys, w: World, dest: Path, e: Entry): (World, bool) {
    var p := dest + e.name;
    if e.isDir then MkdirAt(s, w, p)
    else if p == [] then (w, false)
    else
      var a := MkdirAt(s, w, p[..|p| - 1]);
      if !a.1 then a else WriteAt(s, a.0, p, e.data)
  }

  function Extract(s: Sys, w: World, dest: Path, entries: seq<Entry>): (World, bool)
    decreases |entries|
  {
    if entries == [] then (w, true)
    else
      var a := ExtractOne(s, w, dest, entries[0]);
      if !a.1 then a else Extract(s, a.0, dest, entries[1..])
  }

  function UnTarGzSpec(s: Sys, w: World, src: string, dest: string): (World, bool) {
    var r := Read(s, w, src);
    if r.1.None? then (r.0, false)
    else
      match s.gunzip(r.1.value)
      case None => (r.0, false)
      case Some(stream) =>
        var tape := s.untar(stream);
        var e := Extract(s, r.0, Resolve(s.cwd, dest), tape.entries);
        (e.0, e.1 && tape.clean)
  }

  // The bytes are a gzip stream of a tar stream that ends as it should.
  predicate Intact(s: Sys, data: string) {
    s.gunzip(data).Some? && s.untar(s.gunzip(data).value).clean
  }

  // Under any schedule, nothing else passes for unpacked.
  lemma DamagedRefused(s: Sys, w: World, src: string, dest: string)
    ensures var p := Resolve(s.cwd, src);
            UnTarGzSpec(s, w, src, dest).1 ==> p in w.fs.files && Intact(s, w.fs.files[p])
  {}

  // ---- The operations ----

  // archives.FilesFromDisk for one source
  method FilesFromDisk(env: Env, root: string) returns (files: seq<Entry>)
    ensures files == EntriesOf(env.w.fs, Resolve(env.sys.cwd, root), PrefixOf(env.sys.layout, root),
                               env.sys.order(Under(env.w.fs, Resolve(env.sys.cwd, root))))
  {
    var at := Resolve(env.sys.cwd, root);
    var prefix := PrefixOf(env.sys.layout, root);
    var locs := env.sys.order(Under(env.w.fs, at));
    files := [];
    for i := 0 to |locs|
      invariant files == EntriesOf(env.w.fs, at, prefix, locs[..i])
    {
      assert locs[..i + 1][..i] == locs[..i];
      files := files + EntryOf(env.w.fs, at, prefix, locs[i]);
    }
    assert locs[..|locs|] == locs;
  }

  method TarGz(env: Env, destination: string, source: string) returns (ok: bool)
    modifies env
    ensures (env.w, ok) == TarGzSpec(env.sys, old(env.w), destination, source)
  {
    ok := env.WriteFile(destination, "");
    if !ok { return; }
    ok := env.Attempt();
    if !ok || !Exists(env.w.fs, Resolve(env.sys.cwd, source)) { return false; }
    var files := FilesFromDisk(env, source);
    ok := env.WriteFile(destination, env.sys.gzip(env.sys.tar(files)));
  }

  // The handler called for each member.
  method HandleEntry(env: Env, destination: Path, e: Entry) returns (ok: bool)
    modifies env
    ensures (env.w, ok) == ExtractOne(env.sys, old(env.w), destination, e)
  {
    var p := destination + e.name;
    if e.isDir {
      ok := env.MkdirHere(p);
      return;
    }
    if p == [] { return false; }
    ok := env.MkdirHere(p[..|p| - 1]);
    if !ok { return; }
    ok := env.WriteHere(p, e.data);
  }

  method UnTarGz(env: Env, source: string, destination: string) returns (ok: bool)
    modifies env
    ensures (env.w, ok) == UnTarGzSpec(env.sys, old(env.w), source, destination)
    ensures var p := Resolve(env.sys.cwd, source);
            ok ==> p in old(env.w).fs.files && Intact(env.sys, old(env.w).fs.files[p])
  {
    DamagedRefused(env.sys, env.w, source, destination);
    var file := env.ReadFile(source);
    if file.None? { return false; }
    var stream := env.sys.gunzip(file.value);
    if stream.None? { return false; }
    var tape := env.sys.untar(stream.value);
    var dest := Resolve(env.sys.cwd, destination);
    ghost var all := Extract(env.sys, env.w, dest, tape.entries);
    for i := 0 to |tape.entries|
      invariant all == Extract(env.sys, env.w, dest, tape.entries[i..])
    {
      assert tape.entries[i..][1..] == tape.entries[i + 1..];
      ok := HandleEntry(env, dest, tape.entries[i]);
      if !ok { return; }
    }
    return tape.clean;
  }
}
