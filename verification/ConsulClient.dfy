/**
 consul/consul.go: the client that caches the lists it reads and replays lists
 into the store, one call per element, stopping at the first failure.
 */
module ConsulClient {
  import opened Wrappers
  import opened Base64
  import opened Records
  import opened World
  import opened Env

  // ---- Caching ----

  datatype Client = Client(
    keys: Slice<KVPair>, keysLen: nat, pqs: Slice<PreparedQuery>, pqsLen: nat,
    acls: Slice<ACLEntry>, aclsLen: nat)

  const NEW_CLIENT := Client(Nil, 0, Nil, 0, Nil, 0)

  function ListKeysSpec(s: Sys, w: World, c: Client): (World, Client, bool) {
    var r := ListKeys(s, w);
    match r.1
    case None => (r.0, c, false)
    case Some(l) => (r.0, c.(keys := l, keysLen := l.Len()), true)
  }

  function ListPQsSpec(s: Sys, w: World, c: Client): (World, Client, bool) {
    var r := ListPQs(s, w);
    match r.1
    case None => (r.0, c, false)
    case Some(l) => (r.0, c.(pqs := l, pqsLen := l.Len()), true)
  }

  function ListACLsSpec(s: Sys, w: World, c: Client): (World, Client, bool) {
    var r := ListACLs(s, w);
    match r.1
    case None => (r.0, c, false)
    case Some(l) => (r.0, c.(acls := l, aclsLen := l.Len()), true)
  }

  // ---- Replaying ----

  function ValueBytes(v: Option<Bytes>): Bytes { if v.Some? then v.value else "" }

  function ReplayKeys(s: Sys, w: World, kvs: seq<KVPair>): (World, bool)
    decreases |kvs|
  {
    if kvs == [] then (w, true)
    else
      var a := PutKV(s, w, kvs[0].key, ValueBytes(kvs[0].value));
      if a.1 then ReplayKeys(s, a.0, kvs[1..]) else a
  }

  function ReplayPQs(s: Sys, w: World, pqs: seq<PreparedQuery>): (World, bool)
    decreases |pqs|
  {
    if pqs == [] then (w, true)
    else
      var a := CreatePQ(s, w, pqs[0]);
      if a.1 then ReplayPQs(s, a.0, pqs[1..]) else a
  }

  function ReplayACLs(s: Sys, w: World, acls: seq<ACLEntry>): (World, bool)
    decreases |acls|
  {
    if acls == [] then (w, true)
    else
      var a := CreateACL(s, w, acls[0]);
      if a.1 then ReplayACLs(s, a.0, acls[1..]) else a
  }

  class Consul {
    const env: Env
    var KeyData: Slice<KVPair>
    var KeyDataLen: nat
    var PQData: Slice<PreparedQuery>
    var PQDataLen: nat
    var ACLData: Slice<ACLEntry>
    var ACLDataLen: nat

    constructor (env: Env)
      ensures this.env == env && View() == NEW_CLIENT
    {
      this.env := env;
      KeyData, KeyDataLen := Nil, 0;
      PQData, PQDataLen := Nil, 0;
      ACLData, ACLDataLen := Nil, 0;
    }

    function View(): Client
      reads this
    {
      Client(KeyData, KeyDataLen, PQData, PQDataLen, ACLData, ACLDataLen)
    }

    method ListKeys() returns (ok: bool)
      modifies this, env
      ensures (env.w, View(), ok) == ListKeysSpec(env.sys, old(env.w), old(View()))
    {
      var keys := env.Keys();
      if keys.None? { return false; }
      KeyData := keys.value;
      KeyDataLen := keys.value.Len();
      return true;
    }

    method ListPQs() returns (ok: bool)
      modifies this, env
      ensures (env.w, View(), ok) == ListPQsSpec(env.sys, old(env.w), old(View()))
    {
      var pqs := env.Queries();
      if pqs.None? { return false; }
      PQData := pqs.value;
      PQDataLen := pqs.value.Len();
      return true;
    }

    method ListACLs() returns (ok: bool)
      modifies this, env
      ensures (env.w, View(), ok) == ListACLsSpec(env.sys, old(env.w), old(View()))
    {
      var acls := env.Rules();
      if acls.None? { return false; }
      ACLData := acls.value;
      ACLDataLen := acls.value.Len();
      return true;
    }

    method RestoreKeys(keys: seq<KVPair>) returns (ok: bool)
      modifies env
      ensures (env.w, ok) == ReplayKeys(env.sys, old(env.w), keys)
      ensures ok ==> LaidOver(old(env.w.consul.kv), env.w.consul.kv, keys)
    {
      ReplayKeysLaid(env.sys, env.w, keys);
      assert keys[..|keys|] == keys;
      for i := 0 to |keys|
        invariant ReplayKeys(env.sys, old(env.w), keys) == ReplayKeys(env.sys, env.w, keys[i..])
      {
        ok := env.PutKey(keys[i].key, ValueBytes(keys[i].value));
        assert keys[i..][1..] == keys[i + 1..];
        if !ok { return; }
      }
      return true;
    }

    method RestorePQs(pqs: seq<PreparedQuery>) returns (ok: bool)
      modifies env
      ensures (env.w, ok) == ReplayPQs(env.sys, old(env.w), pqs)
    {
      for i := 0 to |pqs|
        invariant ReplayPQs(env.sys, old(env.w), pqs) == ReplayPQs(env.sys, env.w, pqs[i..])
      {
        ok := env.CreateQuery(pqs[i]);
        assert pqs[i..][1..] == pqs[i + 1..];
        if !ok { return; }
      }
      return true;
    }

    method RestoreACLs(acls: seq<ACLEntry>) returns (ok: bool)
      modifies env
      ensures (env.w, ok) == ReplayACLs(env.sys, old(env.w), acls)
    {
      for i := 0 to |acls|
        invariant ReplayACLs(env.sys, old(env.w), acls) == ReplayACLs(env.sys, env.w, acls[i..])
      {
        ok := env.CreateRule(acls[i]);
        assert acls[i..][1..] == acls[i + 1..];
        if !ok { return; }
      }
      return true;
    }
  }

  // ---- The store after a replay ----

  // The store m overlaid with a list: the last value given for a key wins.
  function Overlay(m: map<string, Bytes>, kvs: seq<KVPair>): map<string, Bytes> {
    if kvs == [] then m
    else Overlay(m, kvs[..|kvs| - 1])[kvs[|kvs| - 1].key := ValueBytes(kvs[|kvs| - 1].value)]
  }

  // The position of the last pair with a key, or -1.
  function LastAt(kvs: seq<KVPair>, key: string): (i: int)
    ensures -1 <= i < |kvs|
    ensures i >= 0 ==> kvs[i].key == key
    ensures forall j :: i < j < |kvs| ==> kvs[j].key != key
  {
    if kvs == [] then -1
    else if kvs[|kvs| - 1].key == key then |kvs| - 1
    else LastAt(kvs[..|kvs| - 1], key)
  }

  // An overlay, key by key: the last pair's own bytes, or none if it has no value.
  lemma {:induction false} OverlayAt(m: map<string, Bytes>, kvs: seq<KVPair>, key: string)
    ensures var i := LastAt(kvs, key); var r := Overlay(m, kvs);
            && (key in r <==> i >= 0 || key in m)
            && (i >= 0 && kvs[i].value.Some? ==> r[key] == kvs[i].value.value)
            && (i >= 0 && kvs[i].value.None? ==> r[key] == "")
            && (i < 0 && key in m ==> r[key] == m[key])
  {
    if kvs != [] && kvs[|kvs| - 1].key != key {
      OverlayAt(m, kvs[..|kvs| - 1], key);
    }
  }

  // These are the bytes of this value; a nil value has none.
  predicate Bears(v: Option<Bytes>, b: Bytes) { (v.Some? && b == v.value) || (v.None? && b == "") }

  // The store after every pair of a list was put: under each of the list's keys are
  // the bytes of the last pair with that key; all other keys are as before.
  ghost predicate LaidOver(before: map<string, Bytes>, after: map<string, Bytes>, kvs: seq<KVPair>) {
    && (forall i :: 0 <= i < |kvs| && (forall j :: i < j < |kvs| ==> kvs[j].key != kvs[i].key) ==>
          kvs[i].key in after && Bears(kvs[i].value, after[kvs[i].key]))
    && (forall key :: key in before || key in after ==>
          (exists i :: 0 <= i < |kvs| && kvs[i].key == key) ||
          (key in before && key in after && after[key] == before[key]))
  }

  lemma LastAtIs(kvs: seq<KVPair>, i: nat)
    requires i < |kvs| && forall j :: i < j < |kvs| ==> kvs[j].key != kvs[i].key
    ensures LastAt(kvs, kvs[i].key) == i
  {}

  lemma OverlayIsLaid(m: map<string, Bytes>, kvs: seq<KVPair>)
    ensures LaidOver(m, Overlay(m, kvs), kvs)
  {
    var r := Overlay(m, kvs);
    forall i | 0 <= i < |kvs| && forall j :: i < j < |kvs| ==> kvs[j].key != kvs[i].key
      ensures kvs[i].key in r && Bears(kvs[i].value, r[kvs[i].key])
    {
      LastAtIs(kvs, i);
      OverlayAt(m, kvs, kvs[i].key);
    }
    forall key | key in m || key in r
      ensures (exists i :: 0 <= i < |kvs| && kvs[i].key == key) || (key in m && key in r && r[key] == m[key])
    {
      OverlayAt(m, kvs, key);
    }
  }

  // A list of exactly these pairs.
  ghost predicate Tells(kvs: seq<KVPair>, m: map<string, Bytes>) {
    && (forall i :: 0 <= i < |kvs| ==> kvs[i].key in m && Bears(kvs[i].value, m[kvs[i].key]))
    && (forall key :: key in m ==> exists i :: 0 <= i < |kvs| && kvs[i].key == key)
  }

  // Laid over a store it makes that store the listed one, exactly if there was
  // nothing else in it.
  lemma OverlayCopiesIff(base: map<string, Bytes>, kvs: seq<KVPair>, m: map<string, Bytes>)
    requires Tells(kvs, m)
    ensures Overlay(base, kvs) == m <==> base.Keys <= m.Keys
  {
    var r := Overlay(base, kvs);
    forall key: string ensures (key in r <==> key in base || key in m) && (key in m ==> r[key] == m[key]) {
      OverlayAt(base, kvs, key);
      var i := LastAt(kvs, key);
      assert key in m <==> i >= 0;
    }
  }

  lemma OverlayIdempotent(m: map<string, Bytes>, kvs: seq<KVPair>)
    ensures Overlay(Overlay(m, kvs), kvs) == Overlay(m, kvs)
  {
    var r, r' := Overlay(m, kvs), Overlay(Overlay(m, kvs), kvs);
    forall key: string
      ensures (key in r <==> key in r') && (key in r ==> r[key] == r'[key])
    {
      OverlayAt(m, kvs, key);
      OverlayAt(r, kvs, key);
    }
  }

  lemma {:induction false} OverlayAppend(m: map<string, Bytes>, a: seq<KVPair>, b: seq<KVPair>)
    ensures Overlay(m, a + b) == Overlay(Overlay(m, a), b)
  {
    if b == [] {
      assert a + b == a;
    } else {
      assert (a + b)[..|a + b| - 1] == a + b[..|b| - 1];
      OverlayAppend(m, a, b[..|b| - 1]);
    }
  }

  // How many of k calls from the given one on go through before one does not.
  function Run(s: Sys, from: nat, k: nat): (n: nat)
    ensures n <= k
    decreases k
  {
    if k > 0 && s.fault(from).Fine? then 1 + Run(s, from + 1, k - 1) else 0
  }

  function Streak(s: Sys, w: World, k: nat): (n: nat)
    ensures n <= k
  {
    if w.alive then Run(s, w.calls, k) else 0
  }

  // It is the longest prefix of calls that all go through.
  lemma {:induction false} RunIsLongest(s: Sys, from: nat, k: nat)
    ensures var n := Run(s, from, k);
            && (forall i :: from <= i < from + n ==> s.fault(i).Fine?)
            && (n < k ==> !s.fault(from + n).Fine?)
    decreases k
  {
    if k > 0 && s.fault(from).Fine? {
      RunIsLongest(s, from + 1, k - 1);
    }
  }

  lemma StreakFine(s: Sys, w: World, k: nat)
    requires FineFrom(s, w.calls) && w.alive
    ensures Streak(s, w, k) == k
  {
    RunIsLongest(s, w.calls, k);
    assert s.fault(w.calls + Run(s, w.calls, k)) == Fine;
  }

  // A replay touches nothing but the Consul store, and makes one call an element.
  ghost predicate OnlyConsul(s: Sys, w: World, r: (World, bool), k: nat) {
    && r.0.fs == w.fs && r.0.objects == w.objects
    && (r.1 ==> r.0.alive == w.alive && r.0.calls == w.calls + k)
  }

  lemma OverlayFirst(m: map<string, Bytes>, kv: KVPair, rest: seq<KVPair>)
    ensures Overlay(m, [kv] + rest) == Overlay(m[kv.key := ValueBytes(kv.value)], rest)
  {
    OverlayAppend(m, [kv], rest);
    assert [kv][..0] == [];
  }

  lemma OverlaySome(m: map<string, Bytes>, kvs: seq<KVPair>, n: nat, k: nat)
    requires k == n + 1 <= |kvs|
    ensures Overlay(m, kvs[..k]) == Overlay(m[kvs[0].key := ValueBytes(kvs[0].value)], kvs[1..][..n])
  {
    var some := kvs[1..][..n];
    OverlayFirst(m, kvs[0], some);
    assert [kvs[0]] + some == kvs[..k];
  }

  // A replay's result: the store is overlaid with the pairs before the first
  // failing call, and the replay succeeds if there was none.
  ghost predicate Overlaid(s: Sys, w: World, kvs: seq<KVPair>, r: (World, bool)) {
    var n := Streak(s, w, |kvs|);
    && r.0.consul == w.consul.(kv := Overlay(w.consul.kv, kvs[..n]))
    && (r.1 <==> n == |kvs|)
  }

  lemma StreakFirst(s: Sys, w: World, k: nat)
    requires k > 0 && Up(s, w)
    ensures Streak(s, w, k) == Streak(s, Next(s, w), k - 1) + 1
  {}

  lemma OverlaidFirst(s: Sys, w: World, kvs: seq<KVPair>, a: World, r: (World, bool))
    requires kvs != [] && Up(s, w) && a == PutKV(s, w, kvs[0].key, ValueBytes(kvs[0].value)).0
    requires Overlaid(s, a, kvs[1..], r)
    ensures Overlaid(s, w, kvs, r)
  {
    var n, k := Streak(s, a, |kvs[1..]|), Streak(s, w, |kvs|);
    StreakFirst(s, w, |kvs|);
    assert k == n + 1;
    OverlaySome(w.consul.kv, kvs, n, k);
  }

  // Exactly the pairs before the first failing call are stored, and an error is
  // reported exactly when some were not.
  lemma {:induction false} ReplayKeysPrefix(s: Sys, w: World, kvs: seq<KVPair>)
    ensures Overlaid(s, w, kvs, ReplayKeys(s, w, kvs))
    decreases |kvs|
  {
    if kvs != [] && Up(s, w) {
      var a := PutKV(s, w, kvs[0].key, ValueBytes(kvs[0].value)).0;
      ReplayKeysPrefix(s, a, kvs[1..]);
      OverlaidFirst(s, w, kvs, a, ReplayKeys(s, a, kvs[1..]));
    }
  }

  // The same, pair by pair and byte by byte.
  lemma ReplayKeysLaid(s: Sys, w: World, kvs: seq<KVPair>)
    ensures var r := ReplayKeys(s, w, kvs); var n := Streak(s, w, |kvs|);
            && LaidOver(w.consul.kv, r.0.consul.kv, kvs[..n])
            && r.0.consul.pqs == w.consul.pqs && r.0.consul.acls == w.consul.acls && (r.1 <==> n == |kvs|)
  {
    ReplayKeysPrefix(s, w, kvs);
    OverlayIsLaid(w.consul.kv, kvs[..Streak(s, w, |kvs|)]);
  }

  lemma {:induction false} ReplayKeysFrame(s: Sys, w: World, kvs: seq<KVPair>)
    ensures OnlyConsul(s, w, ReplayKeys(s, w, kvs), |kvs|)
    decreases |kvs|
  {
    if kvs != [] {
      ReplayKeysFrame(s, PutKV(s, w, kvs[0].key, ValueBytes(kvs[0].value)).0, kvs[1..]);
    }
  }

  lemma SnocPrefix<T>(base: seq<T>, xs: seq<T>, n: nat)
    requires xs != [] && n < |xs|
    ensures (base + [xs[0]]) + xs[1..][..n] == base + xs[..n + 1]
  {}

  lemma {:induction false} ReplayPQsPrefix(s: Sys, w: World, pqs: seq<PreparedQuery>)
    ensures var r := ReplayPQs(s, w, pqs); var n := Streak(s, w, |pqs|);
            && r.0.consul == w.consul.(pqs := w.consul.pqs + pqs[..n])
            && (r.1 <==> n == |pqs|)
    decreases |pqs|
  {
    if pqs == [] || !Up(s, w) {
      assert w.consul.pqs + pqs[..0] == w.consul.pqs;
    } else {
      ReplayPQsPrefix(s, CreatePQ(s, w, pqs[0]).0, pqs[1..]);
      SnocPrefix(w.consul.pqs, pqs, Run(s, w.calls + 1, |pqs| - 1));
    }
  }

  lemma {:induction false} ReplayPQsFrame(s: Sys, w: World, pqs: seq<PreparedQuery>)
    ensures OnlyConsul(s, w, ReplayPQs(s, w, pqs), |pqs|)
    decreases |pqs|
  {
    if pqs != [] {
      ReplayPQsFrame(s, CreatePQ(s, w, pqs[0]).0, pqs[1..]);
    }
  }

  lemma {:induction false} ReplayACLsPrefix(s: Sys, w: World, acls: seq<ACLEntry>)
    ensures var r := ReplayACLs(s, w, acls); var n := Streak(s, w, |acls|);
            && r.0.consul == w.consul.(acls := w.consul.acls + acls[..n])
            && (r.1 <==> n == |acls|)
    decreases |acls|
  {
    if acls == [] || !Up(s, w) {
      assert w.consul.acls + acls[..0] == w.consul.acls;
    } else {
      ReplayACLsPrefix(s, CreateACL(s, w, acls[0]).0, acls[1..]);
      SnocPrefix(w.consul.acls, acls, Run(s, w.calls + 1, |acls| - 1));
    }
  }

  lemma {:induction false} ReplayACLsFrame(s: Sys, w: World, acls: seq<ACLEntry>)
    ensures OnlyConsul(s, w, ReplayACLs(s, w, acls), |acls|)
    decreases |acls|
  {
    if acls != [] {
      ReplayACLsFrame(s, CreateACL(s, w, acls[0]).0, acls[1..]);
    }
  }
}
