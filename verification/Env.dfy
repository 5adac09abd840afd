/** The outside world as the program holds it: one mutable object. */
module Env {
  import opened Wrappers
  import opened Base64
  import opened Records
  import opened World

  class Env {
    const sys: Sys
    var w: World

    constructor (sys: Sys, w: World)
      ensures this.sys == sys && this.w == w
    {
      this.sys := sys;
      this.w := w;
    }

    // log.Fatalf
    method Fatal()
      modifies this
      ensures w == Halt(old(w))
    {
      w := Halt(w);
    }

    method MkdirAll(name: string) returns (ok: bool)
      modifies this
      ensures (w, ok) == Mkdir(sys, old(w), name)
    {
      var r := Mkdir(sys, w, name);
      w, ok := r.0, r.1;
    }

    method WriteFile(name: string, data: string) returns (ok: bool)
      modifies this
      ensures (w, ok) == Write(sys, old(w), name, data)
    {
      var r := Write(sys, w, name, data);
      w, ok := r.0, r.1;
    }

    method ReadFile(name: string) returns (data: Option<string>)
      modifies this
      ensures (w, data) == Read(sys, old(w), name)
    {
      var r := Read(sys, w, name);
      w, data := r.0, r.1;
    }

    method RemoveFile(name: string) returns (ok: bool)
      modifies this
      ensures (w, ok) == Remove(sys, old(w), name)
    {
      var r := Remove(sys, w, name);
      w, ok := r.0, r.1;
    }

    method RemoveTree(name: string) returns (ok: bool)
      modifies this
      ensures (w, ok) == RemoveAll(sys, old(w), name)
    {
      var r := RemoveAll(sys, w, name);
      w, ok := r.0, r.1;
    }

    method UploadObject(bucket: Bucket, key: string, data: string) returns (ok: bool)
      modifies this
      ensures (w, ok) == Upload(sys, old(w), bucket, key, data)
    {
      var r := Upload(sys, w, bucket, key, data);
      w, ok := r.0, r.1;
    }

    method DownloadObject(bucket: Bucket, key: string) returns (data: Option<string>)
      modifies this
      ensures (w, data) == Download(sys, old(w), bucket, key)
    {
      var r := Download(sys, w, bucket, key);
      w, data := r.0, r.1;
    }

    method FetchObject(bucket: Bucket, key: string, name: string) returns (ok: bool)
      modifies this
      ensures (w, ok) == Fetch(sys, old(w), bucket, key, name)
    {
      var r := Fetch(sys, w, bucket, key, name);
      w, ok := r.0, r.1;
    }

    method PutKey(key: string, value: Bytes) returns (ok: bool)
      modifies this
      ensures (w, ok) == PutKV(sys, old(w), key, value)
    {
      var r := PutKV(sys, w, key, value);
      w, ok := r.0, r.1;
    }

    method CreateQuery(pq: PreparedQuery) returns (ok: bool)
      modifies this
      ensures (w, ok) == CreatePQ(sys, old(w), pq)
    {
      var r := CreatePQ(sys, w, pq);
      w, ok := r.0, r.1;
    }

    method CreateRule(acl: ACLEntry) returns (ok: bool)
      modifies this
      ensures (w, ok) == CreateACL(sys, old(w), acl)
    {
      var r := CreateACL(sys, w, acl);
      w, ok := r.0, r.1;
    }

    method Keys() returns (l: Option<Slice<KVPair>>)
      modifies this
      ensures (w, l) == ListKeys(sys, old(w))
    {
      var r := ListKeys(sys, w);
      w, l := r.0, r.1;
    }

    method Queries() returns (l: Option<Slice<PreparedQuery>>)
      modifies this
      ensures (w, l) == ListPQs(sys, old(w))
    {
      var r := ListPQs(sys, w);
      w, l := r.0, r.1;
    }

    method Rules() returns (l: Option<Slice<ACLEntry>>)
      modifies this
      ensures (w, l) == ListACLs(sys, old(w))
    {
      var r := ListACLs(sys, w);
      w, l := r.0, r.1;
    }

    // The next call, when all that matters is whether it goes through.
    method Attempt() returns (ok: bool)
      modifies this
      ensures w == Next(sys, old(w)) && ok == Up(sys, old(w))
    {
      ok := Up(sys, w);
      w := Next(sys, w);
    }

    method MkdirHere(p: seq<string>) returns (ok: bool)
      modifies this
      ensures (w, ok) == MkdirAt(sys, old(w), p)
    {
      var r := MkdirAt(sys, w, p);
      w, ok := r.0, r.1;
    }

    method WriteHere(p: seq<string>, data: string) returns (ok: bool)
      modifies this
      ensures (w, ok) == WriteAt(sys, old(w), p, data)
    {
      var r := WriteAt(sys, w, p, data);
      w, ok := r.0, r.1;
    }
  }
}
