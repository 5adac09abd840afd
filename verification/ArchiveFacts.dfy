/** What an archive holds, and where its members end up when it is unpacked. */
module ArchiveFacts {
  import opened Wrappers
  import opened Paths
  import opened World
  import opened Archiver

  predicate DistinctNames(es: seq<Entry>) {
    forall i, j :: 0 <= i < j < |es| ==> es[i].name != es[j].name
  }

  // No member is stored below a member that is a file.
  predicate Coherent(es: seq<Entry>) {
    && DistinctNames(es)
    && (forall i, j :: 0 <= i < |es| && 0 <= j < |es| && es[i].name < es[j].name ==> es[i].isDir)
  }

  // ---- Packing ----

  // The location a member was made from.
  function Origin(root: Path, prefix: Path, name: Path): Path
    requires |prefix| <= |name|
  {
    root + name[|prefix|..]
  }

  ghost predicate From(fs: Fs, root: Path, prefix: Path, locs: seq<Path>, e: Entry) {
    && prefix <= e.name && e.name != []
    && Origin(root, prefix, e.name) in locs
    && e.isDir == (Origin(root, prefix, e.name) in fs.dirs)
    && e.data == (if Origin(root, prefix, e.name) in fs.files then fs.files[Origin(root, prefix, e.name)] else "")
  }

  // Every member comes from a listed location, in order and without repetition.
  lemma {:induction false} EntriesSound(fs: Fs, root: Path, prefix: Path, locs: seq<Path>)
    requires forall i, j :: 0 <= i < j < |locs| ==> locs[i] != locs[j]
    ensures var es := EntriesOf(fs, root, prefix, locs);
            DistinctNames(es) && forall i :: 0 <= i < |es| ==> From(fs, root, prefix, locs, es[i])
  {
    if locs != [] {
      var n := |locs| - 1;
      EntriesSound(fs, root, prefix, locs[..n]);
      var q := locs[n];
      if root <= q && prefix + q[|root|..] != [] {
        var name := prefix + q[|root|..];
        assert Origin(root, prefix, name) == q;
        assert q !in locs[..n];
      }
    }
  }

  // Every listed file is a member, with its contents.
  lemma {:induction false} EntriesComplete(fs: Fs, root: Path, prefix: Path, locs: seq<Path>, q: Path)
    requires q in locs && q in fs.files && q !in fs.dirs && root <= q && prefix + q[|root|..] != []
    ensures Entry(prefix + q[|root|..], false, fs.files[q]) in EntriesOf(fs, root, prefix, locs)
  {
    var n := |locs| - 1;
    if q != locs[n] {
      EntriesComplete(fs, root, prefix, locs[..n], q);
    }
  }

  // So is every listed directory but an unnamed root, empty or not.
  lemma {:induction false} DirsComplete(fs: Fs, root: Path, prefix: Path, locs: seq<Path>, q: Path)
    requires q in locs && q in fs.dirs && q !in fs.files && root <= q && prefix + q[|root|..] != []
    ensures Entry(prefix + q[|root|..], true, "") in EntriesOf(fs, root, prefix, locs)
  {
    var n := |locs| - 1;
    if q != locs[n] {
      DirsComplete(fs, root, prefix, locs[..n], q);
    }
  }

  // Members of a tree never sit below a file.
  lemma TreeIsCoherent(fs: Fs, root: Path, prefix: Path, locs: seq<Path>)
    requires Tree(fs) && Lists(locs, Under(fs, root))
    ensures Coherent(EntriesOf(fs, root, prefix, locs))
  {
    var es := EntriesOf(fs, root, prefix, locs);
    EntriesSound(fs, root, prefix, locs);
    forall i, j | 0 <= i < |es| && 0 <= j < |es| && es[i].name < es[j].name
      ensures es[i].isDir
    {
      var p, q := Origin(root, prefix, es[i].name), Origin(root, prefix, es[j].name);
      assert From(fs, root, prefix, locs, es[i]) && From(fs, root, prefix, locs, es[j]);
      assert q in Under(fs, root);
      assert p == q[..|p|] && |p| < |q|;
    }
  }

  // ---- Unpacking: what changes ----

  lemma {:induction false} ExtractFrame(s: Sys, w: World, dest: Path, es: seq<Entry>)
    ensures var r := Extract(s, w, dest, es).0;
            r.objects == w.objects && r.consul == w.consul && (r.alive ==> w.alive)
    decreases |es|
  {
    if es != [] {
      ExtractFrame(s, ExtractOne(s, w, dest, es[0]).0, dest, es[1..]);
    }
  }

  // Unpacking writes only where a file member belongs.
  lemma {:induction false} ExtractElsewhere(s: Sys, w: World, dest: Path, es: seq<Entry>, p: Path)
    requires forall i :: 0 <= i < |es| && !es[i].isDir ==> dest + es[i].name != p
    ensures var r := Extract(s, w, dest, es).0;
            && (p in r.fs.files <==> p in w.fs.files)
            && (p in w.fs.files ==> r.fs.files[p] == w.fs.files[p])
    decreases |es|
  {
    if es != [] {
      ExtractElsewhere(s, ExtractOne(s, w, dest, es[0]).0, dest, es[1..], p);
    }
  }

  // Once unpacked, every file member is in its place.
  lemma {:induction false} ExtractPlaces(s: Sys, w: World, dest: Path, es: seq<Entry>, k: nat)
    requires DistinctNames(es) && k < |es| && !es[k].isDir
    requires Extract(s, w, dest, es).1
    ensures var f := Extract(s, w, dest, es).0.fs.files;
            dest + es[k].name in f && f[dest + es[k].name] == es[k].data
    decreases |es|
  {
    var a := ExtractOne(s, w, dest, es[0]);
    if k == 0 {
      assert forall i :: 0 <= i < |es| ==> (dest + es[i].name)[|dest|..] == es[i].name;
      ExtractElsewhere(s, a.0, dest, es[1..], dest + es[0].name);
    } else {
      ExtractPlaces(s, a.0, dest, es[1..], k - 1);
    }
  }

  // ---- Unpacking: when it succeeds ----

  // Nothing is in the way of a member.
  predicate Clear(fs: Fs, dest: Path, e: Entry) {
    var p := dest + e.name;
    && e.name != []
    && (forall k :: 0 <= k <= |p| && (k < |p| || e.isDir) ==> p[..k] !in fs.files)
    && (e.isDir || p !in fs.dirs)
  }

  lemma ExtractOneOk(s: Sys, w: World, dest: Path, e: Entry)
    requires FaultFree(s) && w.alive && Clear(w.fs, dest, e)
    ensures var p := dest + e.name; var a := ExtractOne(s, w, dest, e);
            && a.1 && a.0.alive
            && a.0.fs == (if e.isDir then AddDirs(w.fs, p) else Put(AddDirs(w.fs, p[..|p| - 1]), p, e.data))
  {
    var p := dest + e.name;
    if !e.isDir {
      var q := p[..|p| - 1];
      assert forall k :: 0 <= k <= |q| ==> q[..k] == p[..k];
      assert q == q[..|q|];
      assert p !in Ancestors(q);
    }
  }

  // What making a directory has made when it fails half-way, or does not.
  function MadeBy(s: Sys, w: World, p: Path): (a: Path)
    ensures a <= p
    ensures MkdirAt(s, w, p).0.fs == w.fs || MkdirAt(s, w, p).0.fs == AddDirs(w.fs, a)
    ensures MkdirAt(s, w, p).1 ==> a == p
  {
    if Tears(s, w) then p[..Part(s, w, |p|)] else p
  }

  // Unpacking one member leaves the disk alone, makes directories, or also puts
  // a file, whole or in part.
  lemma ExtractOneDoes(s: Sys, w: World, dest: Path, d: Entry) returns (a: Path, data: string)
    ensures var p := dest + d.name; var fs := ExtractOne(s, w, dest, d).0.fs;
            && a <= p && (!d.isDir && p != [] ==> a < p)
            && (fs == w.fs || fs == AddDirs(w.fs, a) || (!d.isDir && fs == Put(AddDirs(w.fs, a), p, data)))
  {
    var p := dest + d.name;
    a, data := p, "";
    if d.isDir {
      a := MadeBy(s, w, p);
    } else if p != [] {
      a := MadeBy(s, w, p[..|p| - 1]);
      var fs := ExtractOne(s, w, dest, d).0.fs;
      if p in fs.files {
        data := fs.files[p];
      }
    }
  }

  // Two members of one archive, or the same one in two versions.
  predicate Fits(d: Entry, e: Entry) {
    && (d.name == e.name ==> d.isDir == e.isDir)
    && (d.name < e.name ==> d.isDir) && (e.name < d.name ==> e.isDir)
  }

  lemma StartsWith(dest: Path, a: Path, b: Path, k: nat)
    requires k <= |dest + b| && (dest + b)[..k] == dest + a
    ensures a <= b && |a| == k - |dest|
  {
    assert a == (dest + a)[|dest|..] == (dest + b)[..k][|dest|..] == b[..k - |dest|];
  }

  // Under any schedule, unpacking one member is never in the way of another.
  lemma ClearStays(s: Sys, w: World, dest: Path, d: Entry, e: Entry)
    requires Clear(w.fs, dest, e) && Fits(d, e)
    ensures Clear(ExtractOne(s, w, dest, d).0.fs, dest, e)
  {
    var a, data := ExtractOneDoes(s, w, dest, d);
    var p, q := dest + d.name, dest + e.name;
    forall k | 0 <= k <= |q| && q[..k] == p ensures d.name <= e.name && |d.name| == k - |dest| {
      StartsWith(dest, d.name, e.name, k);
    }
    forall k | 0 <= k <= |a| && a[..k] == q ensures e.name <= d.name && |e.name| == k - |dest| {
      assert a[..k] == p[..k];
      StartsWith(dest, e.name, d.name, k);
    }
  }

  // Every member of the archive still has nothing in its way.
  predicate AllClear(fs: Fs, dest: Path, es: seq<Entry>) {
    forall i :: 0 <= i < |es| ==> Clear(fs, dest, es[i])
  }

  // Each of these is a member of the archive, perhaps cut short.
  predicate Among(ds: seq<Entry>, es: seq<Entry>) {
    forall d :: d in ds ==> IsMember(d, es)
  }

  predicate IsMember(d: Entry, es: seq<Entry>) { exists i :: 0 <= i < |es| && Same(d, es[i]) }

  predicate Same(d: Entry, e: Entry) { d.name == e.name && d.isDir == e.isDir }

  lemma CoherentFits(es: seq<Entry>, d: Entry, k: nat, i: nat)
    requires Coherent(es) && k < |es| && i < |es| && Same(d, es[k])
    ensures Fits(d, es[i])
  {}

  // Whatever becomes of an unpacking, it can be done again.
  lemma {:induction false} ExtractKeepsClear(s: Sys, w: World, dest: Path, ds: seq<Entry>, es: seq<Entry>)
    requires Coherent(es) && Among(ds, es) && AllClear(w.fs, dest, es)
    ensures AllClear(Extract(s, w, dest, ds).0.fs, dest, es)
    decreases |ds|
  {
    if ds != [] {
      assert IsMember(ds[0], es);
      var k :| 0 <= k < |es| && Same(ds[0], es[k]);
      var a := ExtractOne(s, w, dest, ds[0]);
      forall i | 0 <= i < |es| ensures Clear(a.0.fs, dest, es[i]) {
        CoherentFits(es, ds[0], k, i);
        ClearStays(s, w, dest, ds[0], es[i]);
      }
      ExtractKeepsClear(s, a.0, dest, ds[1..], es);
    }
  }

  lemma {:induction false} ExtractOk(s: Sys, w: World, dest: Path, es: seq<Entry>)
    requires FaultFree(s) && w.alive && Coherent(es) && AllClear(w.fs, dest, es)
    ensures Extract(s, w, dest, es).1 && Extract(s, w, dest, es).0.alive
    decreases |es|
  {
    if es != [] {
      ExtractOneOk(s, w, dest, es[0]);
      var a := ExtractOne(s, w, dest, es[0]);
      forall i | 0 <= i < |es[1..]| ensures Clear(a.0.fs, dest, es[1..][i]) {
        CoherentFits(es, es[0], 0, i + 1);
        ClearStays(s, w, dest, es[0], es[i + 1]);
      }
      ExtractOk(s, a.0, dest, es[1..]);
    }
  }

  // What is already there.
  predicate Present(fs: Fs, dest: Path, e: Entry) {
    var p := dest + e.name;
    && e.name != []
    && (if e.isDir then p in fs.dirs else p in fs.files && fs.files[p] == e.data)
  }

  lemma ExtractOneSame(s: Sys, w: World, dest: Path, e: Entry)
    requires FaultFree(s) && w.alive && Tree(w.fs) && Present(w.fs, dest, e)
    ensures var a := ExtractOne(s, w, dest, e); a.1 && a.0.alive && a.0.fs == w.fs
  {
    var p := dest + e.name;
    var a := if e.isDir then p else p[..|p| - 1];
    assert forall k :: 0 <= k <= |a| ==> a[..k] == p[..k];
    assert forall k :: 0 <= k < |p| ==> p[..k] in w.fs.dirs;
    assert p[..|p|] == p;
    assert Ancestors(a) <= w.fs.dirs;
    assert AddDirs(w.fs, a) == w.fs;
  }

  // Unpacking a tree over itself changes nothing.
  lemma {:induction false} ExtractSame(s: Sys, w: World, dest: Path, es: seq<Entry>)
    requires FaultFree(s) && w.alive && Tree(w.fs)
    requires forall i :: 0 <= i < |es| ==> Present(w.fs, dest, es[i])
    ensures var r := Extract(s, w, dest, es); r.1 && r.0.alive && r.0.fs == w.fs
    decreases |es|
  {
    if es != [] {
      ExtractOneSame(s, w, dest, es[0]);
      ExtractSame(s, ExtractOne(s, w, dest, es[0]).0, dest, es[1..]);
    }
  }
}
