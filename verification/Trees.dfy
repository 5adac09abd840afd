/** Every call keeps the file system a tree. */
module Trees {
  import opened Paths
  import opened World
  import opened Archiver

  lemma AddDirsTree(fs: Fs, p: Path)
    requires Tree(fs) && CanMkdir(fs, p)
    ensures Tree(AddDirs(fs, p))
  {
    forall q, i | q in Ancestors(p) && 0 <= i < |q|
      ensures q[..i] in Ancestors(p)
    {
      var k :| 0 <= k <= |p| && q == p[..k];
      assert q[..i] == p[..i];
    }
  }

  lemma PutTree(fs: Fs, p: Path, data: string)
    requires Tree(fs) && CanWrite(fs, p)
    ensures Tree(Put(fs, p, data))
  {
    forall i | 0 <= i < |p| ensures p[..i] in fs.dirs {
      var d := p[..|p| - 1];
      assert d[..i] == p[..i] || i == |d|;
    }
  }

  lemma DropTree(fs: Fs, p: Path)
    requires Tree(fs) && CanRemove(fs, p)
    ensures Tree(Drop(fs, p))
  {
    forall q, i | (q in fs.files || q in fs.dirs) && 0 <= i < |q| ensures q[..i] != p {
      assert q[..i] < q;
    }
  }

  lemma WipeTree(fs: Fs, p: Path)
    requires Tree(fs)
    ensures Tree(Wipe(fs, p))
  {
    forall q: Path, i | 0 <= i < |q| && p <= q[..i] ensures p <= q {
      assert q[..i] <= q;
    }
  }

  lemma PruneTree(fs: Fs, p: Path, gone: set<Path>)
    requires Tree(fs)
    ensures Tree(Prune(fs, p, gone))
  {
    forall q: Path, i | 0 <= i < |q| && Swept(fs, p, gone, q[..i]) ensures Swept(fs, p, gone, q) {
      assert q[..i] <= q;
    }
  }

  lemma MkdirKeepsTree(s: Sys, w: World, p: Path)
    requires Tree(w.fs)
    ensures Tree(MkdirAt(s, w, p).0.fs)
  {
    if CanMkdir(w.fs, p) {
      AddDirsTree(w.fs, p);
      var k := Part(s, w, |p|);
      assert forall i :: 0 <= i <= k ==> p[..k][..i] == p[..i];
      AddDirsTree(w.fs, p[..k]);
    }
  }

  lemma WriteKeepsTree(s: Sys, w: World, p: Path, data: string)
    requires Tree(w.fs)
    ensures Tree(WriteAt(s, w, p, data).0.fs)
  {
    if CanWrite(w.fs, p) {
      forall text: string ensures Tree(Put(w.fs, p, text)) {
        PutTree(w.fs, p, text);
      }
    }
  }

  lemma RemoveKeepsTree(s: Sys, w: World, p: Path)
    requires Tree(w.fs)
    ensures Tree(RemoveAt(s, w, p).0.fs)
  {
    if CanRemove(w.fs, p) {
      DropTree(w.fs, p);
    }
  }

  lemma WipeKeepsTree(s: Sys, w: World, p: Path)
    requires Tree(w.fs)
    ensures Tree(WipeAt(s, w, p).0.fs)
  {
    WipeTree(w.fs, p);
    if Tears(s, w) {
      PruneTree(w.fs, p, s.fault(w.calls).gone);
    }
  }

  lemma TarGzKeepsTree(s: Sys, w: World, dest: string, root: string)
    requires Tree(w.fs)
    ensures Tree(TarGzSpec(s, w, dest, root).0.fs)
  {
    var p := Resolve(s.cwd, dest);
    WriteKeepsTree(s, w, p, "");
    var n := Next(s, Write(s, w, dest, "").0);
    WriteKeepsTree(s, n, p, Pack(s, n.fs, root));
  }

  lemma {:induction false} ExtractKeepsTree(s: Sys, w: World, dest: Path, es: seq<Entry>)
    requires Tree(w.fs)
    ensures Tree(Extract(s, w, dest, es).0.fs)
    decreases |es|
  {
    if es != [] {
      var p := dest + es[0].name;
      MkdirKeepsTree(s, w, p);
      if p != [] {
        MkdirKeepsTree(s, w, p[..|p| - 1]);
        WriteKeepsTree(s, MkdirAt(s, w, p[..|p| - 1]).0, p, es[0].data);
      }
      ExtractKeepsTree(s, ExtractOne(s, w, dest, es[0]).0, dest, es[1..]);
    }
  }
}
