/**
 The outside world as values: a file system with tree semantics, an object
 store and a Consul store, and the calls the program makes on them.

 Every call consults a fault schedule. A call may go through, fail, or be torn:
 reported as failed after a part of its effect, be it the front of a file, some of
 the directories to make, some of the tree to remove, or the whole of an upload.
 (Calls to Consul take effect in full or not at all.) A crash (or log.Fatalf) ends
 the process: from then on every call is void. A crash point between any two
 calls, or inside one, is therefore one more schedule.
 */
module World {
  import opened Wrappers
  import opened Paths
  import opened Base64
  import opened Records
  import opened Names

  // ---- State ----

  datatype Fs = Fs(files: map<Path, string>, dirs: set<Path>)

  datatype Store = Store(kv: map<string, Bytes>, pqs: seq<PreparedQuery>, acls: seq<ACLEntry>)

  // The two object stores; each has buckets of its own.
  datatype Provider = S3 | GCS

  datatype Bucket = Bucket(provider: Provider, name: string)

  // A bucket and a key.
  type Place = (Bucket, string)

  datatype World = World(fs: Fs, objects: map<Place, string>, consul: Store, calls: nat, alive: bool)

  // Torn: the call fails after a part of its effect. kept: how much of the data
  // was written, or how many of the directories made; gone: what was removed.
  datatype Fault = Fine | Fails | Torn(kept: nat, gone: set<Path>) | Crash

  // One member of an archive: its name as a list of components.
  datatype Entry = Entry(name: Path, isDir: bool, data: string)

  // What reading a tar stream yields: its entries, and whether it ended cleanly.
  datatype Tape = Tape(entries: seq<Entry>, clean: bool)

  // Where archive members sit: at the root, or under the source's base name.
  datatype Layout = Flat | Nested

  // Everything the program does not decide: the fault schedule, what listings
  // return, the order directories are walked in, and the foreign algorithms.
  datatype Sys = Sys(
    cwd: Path,
    layout: Layout,
    fault: nat -> Fault,
    order: set<Path> -> seq<Path>,
    keys: (Store, nat) -> Slice<KVPair>,
    pqs: (Store, nat) -> Slice<PreparedQuery>,
    acls: (Store, nat) -> Slice<ACLEntry>,
    date: int -> Date,
    gzip: string -> string,
    gunzip: string -> Option<string>,
    tar: seq<Entry> -> string,
    untar: string -> Tape,
    sha256: string -> string,
    kdf: (string, string) -> string,
    seal: (string, string, string) -> string,
    open: (string, string, string) -> Option<string>)

  ghost predicate Lists(l: seq<Path>, s: set<Path>) {
    && (forall i, j :: 0 <= i < j < |l| ==> l[i] != l[j])
    && (forall p :: p in l <==> p in s)
  }

  // The laws of the foreign parts: a walk visits every location once, gzip and
  // tar invert, and only streams with the gzip identification bytes
  // (section 2.3.1 of RFC 1952) are accepted as gzip.
  ghost predicate Lawful(s: Sys) {
    && (forall q: set<Path> :: Lists(s.order(q), q))
    && (forall b: string :: s.gunzip(s.gzip(b)) == Some(b))
    && (forall b: string :: s.gunzip(b).Some? ==> |b| >= 2 && b[0] == '\U{001F}' && b[1] == '\U{008B}')
    && (forall es: seq<Entry> :: s.untar(s.tar(es)) == Tape(es, true))
  }

  // Authenticated decryption inverts encryption under the same key and nonce
  // (sections 7.1 and 7.2 of NIST SP 800-38D).
  ghost predicate Sealing(s: Sys) {
    forall key: string, nonce: string, text: string ::
      s.open(key, nonce, s.seal(key, nonce, text)) == Some(text)
  }

  // No call fails.
  ghost predicate FaultFree(s: Sys) { forall n: nat :: s.fault(n) == Fine }

  // No call fails from the given one on.
  ghost predicate FineFrom(s: Sys, from: nat) { forall n: nat :: from <= n ==> s.fault(n) == Fine }

  // The process lives, and no call of its fails from now on.
  ghost predicate Smooth(s: Sys, w: World) { w.alive && FineFrom(s, w.calls) }

  // Another process, in some directory, whose calls do not fail.
  function Calm(s: Sys, cwd: Path): Sys { s.(fault := (n: nat) => Fine, cwd := cwd) }

  lemma CalmLaws(s: Sys, cwd: Path)
    requires Lawful(s)
    ensures Lawful(Calm(s, cwd)) && FaultFree(Calm(s, cwd))
  {}

  // The last call went through.
  ghost predicate LastFine(s: Sys, w: World) { w.calls > 0 && s.fault(w.calls - 1).Fine? }

  // The last two calls went through.
  ghost predicate LastTwoFine(s: Sys, w: World) {
    forall i: nat :: w.calls - 2 <= i < w.calls ==> s.fault(i).Fine?
  }

  // ---- The file system ----

  predicate CanMkdir(fs: Fs, p: Path) {
    forall i :: 0 <= i <= |p| ==> p[..i] !in fs.files
  }

  function Ancestors(p: Path): set<Path> { set i | 0 <= i <= |p| :: p[..i] }

  function AddDirs(fs: Fs, p: Path): Fs { fs.(dirs := fs.dirs + Ancestors(p)) }

  predicate CanWrite(fs: Fs, p: Path) {
    p != [] && p[..|p| - 1] in fs.dirs && p !in fs.dirs
  }

  function Put(fs: Fs, p: Path, data: string): Fs { fs.(files := fs.files[p := data]) }

  // os.Remove: a file, or a directory with nothing in it.
  predicate CanRemove(fs: Fs, p: Path) {
    p in fs.files ||
    (p in fs.dirs && (forall q :: q in fs.files ==> !(p < q)) && (forall q :: q in fs.dirs ==> !(p < q)))
  }

  function Drop(fs: Fs, p: Path): Fs { Fs(fs.files - {p}, fs.dirs - {p}) }

  // os.RemoveAll: the location and everything below it.
  function Wipe(fs: Fs, p: Path): Fs {
    Fs(map q | q in fs.files && !(p <= q) :: fs.files[q], set q | q in fs.dirs && !(p <= q))
  }

  // A removal of everything below p that has taken only these, a directory only
  // with all that is in it.
  predicate Swept(fs: Fs, p: Path, gone: set<Path>, q: Path) {
    && p <= q
    && (forall r :: r in fs.files && q <= r ==> r in gone)
    && (forall r :: r in fs.dirs && q <= r ==> r in gone)
  }

  function Prune(fs: Fs, p: Path, gone: set<Path>): Fs {
    Fs(map q | q in fs.files && !Swept(fs, p, gone, q) :: fs.files[q],
       set q | q in fs.dirs && !Swept(fs, p, gone, q))
  }

  // A file system is a tree: whatever exists has directories above it.
  ghost predicate Tree(fs: Fs) {
    && fs.files.Keys !! fs.dirs
    && (forall q, i :: q in fs.files && 0 <= i < |q| ==> q[..i] in fs.dirs)
    && (forall q, i :: q in fs.dirs && 0 <= i < |q| ==> q[..i] in fs.dirs)
  }

  // ---- Calls ----

  function Next(s: Sys, w: World): World {
    if w.alive then w.(calls := w.calls + 1, alive := !s.fault(w.calls).Crash?) else w
  }

  // The next call goes through, as far as the schedule is concerned.
  predicate Up(s: Sys, w: World) { w.alive && s.fault(w.calls).Fine? }

  // The next call, if it reads this file, reads all of it.
  predicate Legible(s: Sys, w: World, p: Path) { Up(s, w) && p in w.fs.files }

  // The next call does a part of its work.
  predicate Tears(s: Sys, w: World) { w.alive && s.fault(w.calls).Torn? }

  // As much of n as a torn call gets done.
  function Part(s: Sys, w: World, n: nat): (k: nat)
    ensures k <= n
  {
    if s.fault(w.calls).Torn? && s.fault(w.calls).kept < n then s.fault(w.calls).kept else n
  }

  // log.Fatalf, log.Fatal and run-time panics.
  function Halt(w: World): World { w.(alive := false) }

  // After a call that made a directory.
  function Made(s: Sys, w: World, p: Path): World { Next(s, w).(fs := AddDirs(w.fs, p)) }

  function MkdirAt(s: Sys, w: World, p: Path): (World, bool) {
    if Up(s, w) && CanMkdir(w.fs, p) then (Made(s, w, p), true)
    else if Tears(s, w) && CanMkdir(w.fs, p) then (Made(s, w, p[..Part(s, w, |p|)]), false)
    else (Next(s, w), false)
  }

  function WriteAt(s: Sys, w: World, p: Path, data: string): (World, bool) {
    if Up(s, w) && CanWrite(w.fs, p) then (Next(s, w).(fs := Put(w.fs, p, data)), true)
    else if Tears(s, w) && CanWrite(w.fs, p) then
      (Next(s, w).(fs := Put(w.fs, p, data[..Part(s, w, |data|)])), false)
    else (Next(s, w), false)
  }

  function ReadAt(s: Sys, w: World, p: Path): (World, Option<string>) {
    (Next(s, w), if Up(s, w) && p in w.fs.files then Some(w.fs.files[p]) else None)
  }

  function RemoveAt(s: Sys, w: World, p: Path): (World, bool) {
    if Up(s, w) && CanRemove(w.fs, p) then (Next(s, w).(fs := Drop(w.fs, p)), true)
    else (Next(s, w), false)
  }

  function WipeAt(s: Sys, w: World, p: Path): (World, bool) {
    if Up(s, w) then (Next(s, w).(fs := Wipe(w.fs, p)), true)
    else if Tears(s, w) then (Next(s, w).(fs := Prune(w.fs, p, s.fault(w.calls).gone)), false)
    else (Next(s, w), false)
  }

  function Upload(s: Sys, w: World, bucket: Bucket, key: string, data: string): (World, bool) {
    if Up(s, w) || Tears(s, w) then (Next(s, w).(objects := w.objects[(bucket, key) := data]), Up(s, w))
    else (Next(s, w), false)
  }

  function Download(s: Sys, w: World, bucket: Bucket, key: string): (World, Option<string>) {
    (Next(s, w), if Up(s, w) && (bucket, key) in w.objects then Some(w.objects[(bucket, key)]) else None)
  }

  // A download straight into a file; one that fails may leave part of the data.
  function FetchAt(s: Sys, w: World, bucket: Bucket, key: string, p: Path): (World, bool) {
    if (bucket, key) in w.objects then WriteAt(s, w, p, w.objects[(bucket, key)]) else (Next(s, w), false)
  }

  function PutKV(s: Sys, w: World, key: string, value: Bytes): (World, bool) {
    if Up(s, w) then (Next(s, w).(consul := w.consul.(kv := w.consul.kv[key := value])), true)
    else (Next(s, w), false)
  }

  function CreatePQ(s: Sys, w: World, pq: PreparedQuery): (World, bool) {
    if Up(s, w) then (Next(s, w).(consul := w.consul.(pqs := w.consul.pqs + [pq])), true)
    else (Next(s, w), false)
  }

  function CreateACL(s: Sys, w: World, acl: ACLEntry): (World, bool) {
    if Up(s, w) then (Next(s, w).(consul := w.consul.(acls := w.consul.acls + [acl])), true)
    else (Next(s, w), false)
  }

  function ListKeys(s: Sys, w: World): (World, Option<Slice<KVPair>>) {
    (Next(s, w), if Up(s, w) then Some(s.keys(w.consul, w.calls)) else None)
  }

  function ListPQs(s: Sys, w: World): (World, Option<Slice<PreparedQuery>>) {
    (Next(s, w), if Up(s, w) then Some(s.pqs(w.consul, w.calls)) else None)
  }

  function ListACLs(s: Sys, w: World): (World, Option<Slice<ACLEntry>>) {
    (Next(s, w), if Up(s, w) then Some(s.acls(w.consul, w.calls)) else None)
  }

  // ---- Calls that name a location by its path ----

  function Mkdir(s: Sys, w: World, name: string): (World, bool) { MkdirAt(s, w, Resolve(s.cwd, name)) }

  function Write(s: Sys, w: World, name: string, data: string): (World, bool) {
    WriteAt(s, w, Resolve(s.cwd, name), data)
  }

  function Read(s: Sys, w: World, name: string): (World, Option<string>) { ReadAt(s, w, Resolve(s.cwd, name)) }

  function Fetch(s: Sys, w: World, bucket: Bucket, key: string, name: string): (World, bool) {
    FetchAt(s, w, bucket, key, Resolve(s.cwd, name))
  }

  function Remove(s: Sys, w: World, name: string): (World, bool) { RemoveAt(s, w, Resolve(s.cwd, name)) }

  function RemoveAll(s: Sys, w: World, name: string): (World, bool) { WipeAt(s, w, Resolve(s.cwd, name)) }
}
