/**
 Go's path/filepath on slash-separated names, and what a name denotes on disk.
 A location is the list of components from the root; relative names start at
 the working directory, and ".." is resolved lexically (no symbolic links).
 */
module Paths {
  type Path = seq<string>

  predicate Simple(c: string) {
    c != "" && c != "." && c != ".." && '/' !in c
  }

  predicate Plain(cs: seq<string>) {
    forall i :: 0 <= i < |cs| ==> '/' !in cs[i]
  }

  function Split(s: string): (cs: seq<string>)
    ensures |cs| >= 1
  {
    if s == "" then [""]
    else if s[0] == '/' then [""] + Split(s[1..])
    else var r := Split(s[1..]); [[s[0]] + r[0]] + r[1..]
  }

  function Render(cs: seq<string>): string {
    if cs == [] then ""
    else if |cs| == 1 then cs[0]
    else Render(cs[..|cs| - 1]) + "/" + cs[|cs| - 1]
  }

  function Step(at: Path, c: string): Path {
    if c == "" || c == "." then at
    else if c == ".." then (if at == [] then [] else at[..|at| - 1])
    else at + [c]
  }

  function Walk(at: Path, cs: seq<string>): Path {
    if cs == [] then at else Step(Walk(at, cs[..|cs| - 1]), cs[|cs| - 1])
  }

  // As Step, but a relative name keeps the ".." that lead out of its start.
  function StepRel(at: Path, c: string): Path {
    if c == "" || c == "." then at
    else if c == ".." && at != [] && at[|at| - 1] != ".." then at[..|at| - 1]
    else at + [c]
  }

  function WalkRel(cs: seq<string>): Path {
    if cs == [] then [] else StepRel(WalkRel(cs[..|cs| - 1]), cs[|cs| - 1])
  }

  predicate Rooted(s: string) { s != "" && s[0] == '/' }

  function Start(cwd: Path, s: string): Path { if Rooted(s) then [] else cwd }

  // The location a name denotes.
  function Resolve(cwd: Path, s: string): Path {
    Walk(Start(cwd, s), Split(s))
  }

  // filepath.Clean
  function Clean(s: string): string { Tidy(Rooted(s), Split(s)) }

  function Tidy(rooted: bool, cs: seq<string>): string {
    if rooted then "/" + Render(Walk([], cs))
    else if WalkRel(cs) == [] then "."
    else Render(WalkRel(cs))
  }

  // filepath.Join of two elements: an empty element is ignored.
  function Join(dir: string, name: string): string {
    if dir == "" && name == "" then ""
    else if dir == "" then Clean(name)
    else if name == "" then Clean(dir)
    else Clean(dir + "/" + name)
  }

  // The length of s up to and including its last slash.
  function LastSlash(s: string): (n: nat)
    ensures n <= |s| && '/' !in s[n..]
    ensures n > 0 ==> s[n - 1] == '/'
  {
    if s == "" then 0
    else if s[|s| - 1] == '/' then |s|
    else
      var n := LastSlash(s[..|s| - 1]);
      assert s[n..] == s[..|s| - 1][n..] + [s[|s| - 1]];
      n
  }

  function TrimSlashes(s: string): string {
    if s != "" && s[|s| - 1] == '/' then TrimSlashes(s[..|s| - 1]) else s
  }

  // filepath.Base
  function Base(s: string): string {
    if s == "" then "."
    else
      var t := TrimSlashes(s);
      if t == "" then "/" else t[LastSlash(t)..]
  }

  // filepath.Dir
  function Dir(s: string): string {
    Clean(s[..LastSlash(s)])
  }

  // Two entries of a directory: what is in the one is not under the other.
  lemma Siblings(p: Path, a: string, b: string, name: Path)
    requires a != b
    ensures !(p + [a] <= p + [b] + name)
  {
    assert (p + [a])[|p|] == a && (p + [b] + name)[|p|] == b;
  }

  // Neither of two entries of a directory is under the other.
  lemma SiblingsApart(p: Path, a: string, b: string)
    requires a != b
    ensures !(p + [a] <= p + [b]) && !(p + [b] <= p + [a])
  {
    Siblings(p, a, b, []);
    Siblings(p, b, a, []);
    assert p + [a] + [] == p + [a] && p + [b] + [] == p + [b];
  }

  // ---- Splitting and joining ----

  lemma {:induction false} SplitPlain(c: string)
    requires '/' !in c
    ensures Split(c) == [c]
  {
    if c != "" {
      SplitPlain(c[1..]);
      assert c[0] in c && c == [c[0]] + c[1..];
    }
  }

  lemma {:induction false} SplitAppend(a: string, b: string)
    ensures Split(a + "/" + b) == Split(a) + Split(b)
  {
    var s := a + "/" + b;
    if a == "" {
      assert s[1..] == b;
    } else {
      assert s[1..] == a[1..] + "/" + b;
      SplitAppend(a[1..], b);
    }
  }

  lemma {:induction false} SplitRender(cs: seq<string>)
    requires cs != [] && Plain(cs)
    ensures Split(Render(cs)) == cs
  {
    if |cs| == 1 {
      SplitPlain(cs[0]);
    } else {
      var front, last := cs[..|cs| - 1], cs[|cs| - 1];
      SplitRender(front);
      SplitAppend(Render(front), last);
      SplitPlain(last);
    }
  }

  lemma {:induction false} SplitIsPlain(s: string)
    ensures Plain(Split(s))
  {
    if s != "" {
      SplitIsPlain(s[1..]);
    }
  }

  lemma {:induction false} WalkAppend(at: Path, cs: seq<string>, ds: seq<string>)
    ensures Walk(at, cs + ds) == Walk(Walk(at, cs), ds)
  {
    if ds == [] {
      assert cs + ds == cs;
    } else {
      WalkAppend(at, cs, ds[..|ds| - 1]);
      assert (cs + ds)[..|cs + ds| - 1] == cs + ds[..|ds| - 1];
    }
  }

  // ---- Cleaning a name does not change what it denotes ----

  predicate AllSimple(cs: seq<string>) {
    forall i :: 0 <= i < |cs| ==> Simple(cs[i])
  }

  lemma {:induction false} WalkSimple(at: Path, cs: seq<string>)
    requires AllSimple(cs)
    ensures Walk(at, cs) == at + cs
  {
    if cs != [] {
      WalkSimple(at, cs[..|cs| - 1]);
      assert cs == cs[..|cs| - 1] + [cs[|cs| - 1]];
    }
  }

  lemma {:induction false} WalkFromRootIsSimple(cs: seq<string>)
    requires Plain(cs)
    ensures AllSimple(Walk([], cs))
  {
    if cs != [] {
      WalkFromRootIsSimple(cs[..|cs| - 1]);
    }
  }

  // What a cleaned relative name is made of.
  predicate RelShape(cs: seq<string>) {
    forall i :: 0 <= i < |cs| ==> cs[i] == ".." || Simple(cs[i])
  }

  lemma StepRelShape(r: Path, c: string)
    requires RelShape(r) && '/' !in c
    ensures RelShape(StepRel(r, c))
  {}

  lemma StepRelSound(at: Path, r: Path, c: string)
    requires RelShape(r)
    ensures Walk(at, StepRel(r, c)) == Step(Walk(at, r), c)
  {
    assert (r + [c])[..|r|] == r;
    if c == ".." && r != [] && r[|r| - 1] != ".." {
      assert Walk(at, r) == Walk(at, r[..|r| - 1]) + [r[|r| - 1]];
    }
  }

  lemma {:induction false} WalkRelShape(cs: seq<string>)
    requires Plain(cs)
    ensures RelShape(WalkRel(cs))
  {
    if cs != [] {
      WalkRelShape(cs[..|cs| - 1]);
      StepRelShape(WalkRel(cs[..|cs| - 1]), cs[|cs| - 1]);
    }
  }

  lemma {:induction false} WalkRelSound(at: Path, cs: seq<string>)
    requires Plain(cs)
    ensures Walk(at, WalkRel(cs)) == Walk(at, cs)
  {
    if cs != [] {
      var front := cs[..|cs| - 1];
      WalkRelSound(at, front);
      WalkRelShape(front);
      StepRelSound(at, WalkRel(front), cs[|cs| - 1]);
    }
  }

  lemma ResolveRendered(cwd: Path, cs: seq<string>)
    requires AllSimple(cs)
    ensures Resolve(cwd, "/" + Render(cs)) == cs
  {
    SplitAppend("", Render(cs));
    assert "" + "/" + Render(cs) == "/" + Render(cs);
    assert Split("") == [""];
    WalkAppend([], [""], Split(Render(cs)));
    assert Walk([], [""]) == [];
    if cs != [] {
      SplitRender(cs);
      WalkSimple([], cs);
    }
  }

  lemma ResolveClean(cwd: Path, s: string)
    ensures Resolve(cwd, Clean(s)) == Resolve(cwd, s)
  {
    SplitIsPlain(s);
    if Rooted(s) {
      WalkFromRootIsSimple(Split(s));
      ResolveRendered(cwd, Walk([], Split(s)));
    } else {
      var cs := WalkRel(Split(s));
      WalkRelSound(cwd, Split(s));
      WalkRelShape(Split(s));
      if cs == [] {
        SplitPlain(".");
      } else {
        SplitRender(cs);
        NotRooted(cs);
      }
    }
  }

  lemma {:induction false} NotRooted(cs: seq<string>)
    requires cs != [] && Plain(cs) && cs[0] != ""
    ensures Render(cs) != "" && Render(cs)[0] == cs[0][0]
    ensures !Rooted(Render(cs))
  {
    if |cs| > 1 {
      NotRooted(cs[..|cs| - 1]);
    }
  }

  // ---- Names made by joining a directory and a simple file name ----

  // What Join puts before a simple file name: nothing, or text ending in a slash.
  function JoinPrefix(dir: string): string { if dir == "" then "" else TidyPrefix(Rooted(dir), Split(dir)) }

  function TidyPrefix(rooted: bool, cs: seq<string>): string {
    var at := if rooted then Walk([], cs) else WalkRel(cs);
    (if rooted then "/" else "") + (if at == [] then "" else Render(at) + "/")
  }

  lemma CleanSlash(dir: string, f: string)
    requires dir != "" && Simple(f)
    ensures Clean(dir + "/" + f) == JoinPrefix(dir) + f
  {
    SplitPlain(f);
    SplitAppend(dir, f);
    assert Rooted(dir + "/" + f) == Rooted(dir);
    TidyEnd(Rooted(dir), Split(dir), f);
  }

  lemma TidyEnd(rooted: bool, cs: seq<string>, f: string)
    requires Simple(f)
    ensures Tidy(rooted, cs + [f]) == TidyPrefix(rooted, cs) + f
  {
    var at := if rooted then Walk([], cs) else WalkRel(cs);
    WalkEnd(cs, f);
    TidyIs(rooted, cs + [f], at + [f]);
    RenderEnd(at, f);
    Shift(if rooted then "/" else "", if at == [] then "" else Render(at) + "/", f);
  }

  lemma TidyIs(rooted: bool, cs: seq<string>, at: Path)
    requires at == (if rooted then Walk([], cs) else WalkRel(cs)) && at != []
    ensures Tidy(rooted, cs) == (if rooted then "/" else "") + Render(at)
  {}

  lemma Shift(a: string, b: string, c: string)
    ensures a + (b + c) == (a + b) + c
  {}

  lemma WalkEnd(cs: seq<string>, f: string)
    requires Simple(f)
    ensures Walk([], cs + [f]) == Walk([], cs) + [f] && WalkRel(cs + [f]) == WalkRel(cs) + [f]
  {
    assert (cs + [f])[..|cs|] == cs;
  }

  lemma TidyOne(f: string)
    requires WalkRel([f]) == [f]
    ensures Tidy(false, [f]) == f
  {}

  lemma CleanSimple(f: string)
    requires Simple(f)
    ensures Clean(f) == f
  {
    SplitPlain(f);
    WalkEnd([], f);
    assert [] + [f] == [f];
    TidyOne(f);
    assert f[0] in f;
  }

  lemma TidyPrefixEnd(rooted: bool, cs: seq<string>)
    ensures var t := TidyPrefix(rooted, cs); t == "" || t[|t| - 1] == '/'
  {
    var at := if rooted then Walk([], cs) else WalkRel(cs);
    assert (Render(at) + "/")[|Render(at)|] == '/';
  }

  lemma JoinSimple(dir: string, f: string)
    requires Simple(f)
    ensures Join(dir, f) == JoinPrefix(dir) + f
    ensures JoinPrefix(dir) == "" || JoinPrefix(dir)[|JoinPrefix(dir)| - 1] == '/'
  {
    if dir == "" {
      CleanSimple(f);
    } else {
      CleanSlash(dir, f);
      TidyPrefixEnd(Rooted(dir), Split(dir));
    }
  }

  lemma RenderEnd(cs: seq<string>, f: string)
    ensures Render(cs + [f]) == (if cs == [] then "" else Render(cs) + "/") + f
  {
    assert (cs + [f])[..|cs|] == cs;
  }

  lemma ResolveJoin(cwd: Path, dir: string, f: string)
    requires Simple(f)
    ensures Resolve(cwd, Join(dir, f)) == Resolve(cwd, dir) + [f]
  {
    SplitPlain(f);
    if dir == "" {
      ResolveClean(cwd, f);
      assert Split("") == [""];
    } else {
      ResolveClean(cwd, dir + "/" + f);
      ResolveSlash(cwd, dir, f);
    }
  }

  // The same for the plain concatenation dir + "/" + f.
  lemma ResolveSlash(cwd: Path, dir: string, f: string)
    requires dir != "" && Simple(f)
    ensures Resolve(cwd, dir + "/" + f) == Resolve(cwd, dir) + [f]
  {
    SplitPlain(f);
    SplitAppend(dir, f);
    assert (Split(dir) + [f])[..|Split(dir)|] == Split(dir);
    assert Rooted(dir + "/" + f) == Rooted(dir);
  }

  lemma {:induction false} LastSlashIs(pre: string, f: string)
    requires pre == "" || pre[|pre| - 1] == '/'
    requires '/' !in f
    ensures LastSlash(pre + f) == |pre|
  {
    if f == "" {
      assert pre + f == pre;
    } else {
      assert (pre + f)[..|pre + f| - 1] == pre + f[..|f| - 1];
      LastSlashIs(pre, f[..|f| - 1]);
    }
  }

  lemma BaseOf(pre: string, f: string)
    requires pre == "" || pre[|pre| - 1] == '/'
    requires Simple(f)
    ensures Base(pre + f) == f
  {
    LastSlashIs(pre, f);
    assert f[|f| - 1] in f;
  }

  lemma BaseJoin(dir: string, f: string)
    requires Simple(f)
    ensures Base(Join(dir, f)) == f
  {
    JoinSimple(dir, f);
    BaseOf(JoinPrefix(dir), f);
  }

  // filepath.Dir of dir + "/" + f denotes what dir denotes ("/" if dir is empty).
  lemma ResolveDir(cwd: Path, dir: string, f: string)
    requires dir != "" && Simple(f)
    ensures Resolve(cwd, Dir(dir + "/" + f)) == Resolve(cwd, dir)
  {
    LastSlashIs(dir + "/", f);
    assert (dir + "/" + f)[..|dir| + 1] == dir + "/";
    ResolveClean(cwd, dir + "/");
    assert dir + "/" == dir + "/" + "";
    SplitAppend(dir, "");
    assert Split("") == [""];
    assert (Split(dir) + [""])[..|Split(dir)|] == Split(dir);
    assert Rooted(dir + "/") == Rooted(dir);
  }

  lemma CleanNotEmpty(s: string)
    ensures Clean(s) != ""
  {
    if !Rooted(s) && WalkRel(Split(s)) != [] {
      SplitIsPlain(s);
      WalkRelShape(Split(s));
      NotRooted(WalkRel(Split(s)));
    }
  }

  lemma JoinNotEmpty(dir: string, name: string)
    requires name != ""
    ensures Join(dir, name) != ""
  {
    CleanNotEmpty(name);
    CleanNotEmpty(dir + "/" + name);
  }

  lemma BaseNotEmpty(s: string)
    ensures Base(s) != ""
  {
    if s != "" {
      TrimEnd(s);
    }
  }

  lemma {:induction false} TrimEnd(s: string)
    ensures var t := TrimSlashes(s); t != "" ==> t[|t| - 1] != '/' && LastSlash(t) < |t|
  {
    if s != "" && s[|s| - 1] == '/' {
      TrimEnd(s[..|s| - 1]);
    }
  }

  lemma Regroup(a: string, b: string, c: string)
    ensures a + b + c == a + (b + c)
  {}

  lemma JoinSuffix(cwd: Path, dir: string, file: string, suffix: string)
    requires Simple(file) && Simple(file + suffix)
    ensures Join(dir, file) + suffix == Join(dir, file + suffix)
    ensures Resolve(cwd, Join(dir, file) + suffix) == Resolve(cwd, dir) + [file + suffix]
  {
    JoinSimple(dir, file);
    JoinSimple(dir, file + suffix);
    ResolveJoin(cwd, dir, file + suffix);
    Regroup(JoinPrefix(dir), file, suffix);
  }
}
