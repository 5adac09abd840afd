/**
 Every history of the daemon: ticks that may fail or be killed at any call,
 restarts, and other users of Consul in between.
 */
module Daemon {
  import opened Wrappers
  import opened Decimal
  import opened Records
  import opened World
  import opened Config
  import opened ConsulClient
  import opened LegacyBackup
  import opened LegacyBackupFacts

  // A list that Consul returned in full.
  datatype Listing = Keys(kvs: Slice<KVPair>) | PQs(pqs: Slice<PreparedQuery>) | ACLs(acls: Slice<ACLEntry>)

  // One run: what it was given, the client once it had listed, and what its
  // process had heard by then.
  datatype Run = Run(tick: Tick, client: Client, heard: seq<Listing>)

  // heard: the successful listings of the current process, oldest first.
  // runs: every run begun so far, in this process or an earlier one.
  datatype State = State(w: World, client: Client, heard: seq<Listing>, runs: seq<Run>)

  function Start(w: World): State { State(w, NEW_CLIENT, [], []) }

  // Others: the rest of the store as other users of Consul have left it.
  datatype Event = Work(tick: Tick) | Restart | Others(store: Store)

  function Told<T>(l: Option<T>, f: T -> Listing): seq<Listing> { if l.Some? then [f(l.value)] else [] }

  // The successful listings of one tick.
  function Heard(s: Sys, w: World): seq<Listing> {
    var k := ListKeys(s, w);
    var p := ListPQs(s, k.0);
    var a := ListACLs(s, p.0);
    Told(k.1, l => Keys(l)) + Told(p.1, l => PQs(l)) + Told(a.1, l => ACLs(l))
  }

  // Nobody but the daemon writes its acknowledgement.
  function Blend(mine: Store, theirs: Store): Store {
    theirs.(kv := if ACK_KEY in mine.kv then theirs.kv[ACK_KEY := mine.kv[ACK_KEY]] else theirs.kv - {ACK_KEY})
  }

  function Step(s: Sys, cfg: Config, x: State, e: Event): State {
    match e
    case Work(t) =>
      if !x.w.alive then x
      else
        var r := DoWorkSpec(s, x.w, cfg, x.client, t);
        var heard := x.heard + Heard(s, x.w);
        State(if r.2 then r.0 else Halt(r.0), r.1, heard, x.runs + [Run(t, r.1, heard)])
    case Restart => State(x.w.(alive := true), NEW_CLIENT, [], x.runs)
    case Others(store) => x.(w := x.w.(consul := Blend(x.w.consul, store)))
  }

  type Transition = (State, Event) -> State

  function Fold(f: Transition, x: State, events: seq<Event>): State {
    if events == [] then x else f(Fold(f, x, events[..|events| - 1]), events[|events| - 1])
  }

  function StepOf(s: Sys, cfg: Config): Transition { (x, e) => Step(s, cfg, x, e) }

  function History(s: Sys, cfg: Config, x: State, events: seq<Event>): State { Fold(StepOf(s, cfg), x, events) }

  // What every step keeps, every history keeps.
  lemma {:induction false} FoldKeeps(f: Transition, inv: State -> bool, ok: Event -> bool, x: State, events: seq<Event>)
    requires inv(x) && forall y, e :: inv(y) && ok(e) ==> inv(f(y, e))
    requires forall i :: 0 <= i < |events| ==> ok(events[i])
    ensures inv(Fold(f, x, events))
  {
    if events != [] {
      FoldKeeps(f, inv, ok, x, events[..|events| - 1]);
    }
  }

  lemma {:induction false} FoldFirst(f: Transition, x: State, e: Event, events: seq<Event>)
    ensures Fold(f, x, [e] + events) == Fold(f, f(x, e), events)
  {
    if events == [] {
      assert [e] + events == [e] && [e][..0] == [];
    } else {
      assert ([e] + events)[..|events|] == [e] + events[..|events| - 1];
      FoldFirst(f, x, e, events[..|events| - 1]);
    }
  }

  // ---- The acknowledgement is safe ----

  // This object is the archive of this run: of the lists its client held, with
  // metadata that matches them.
  ghost predicate Made(s: Sys, cfg: Config, r: Run, data: string) {
    Good(s, cfg, r.tick.start, Snapshot(s, cfg, r.client, r.tick), data)
  }

  // The bucket holds, under the key for start, the archive of a run of this
  // history that started then.
  ghost predicate Holds(s: Sys, cfg: Config, w: World, runs: seq<Run>, b: Bucket, start: int64) {
    && (b, KeyOf(s, cfg, start)) in w.objects
    && (exists i :: 0 <= i < |runs| && runs[i].tick.start == start
                    && Made(s, cfg, runs[i], w.objects[(b, KeyOf(s, cfg, start))]))
  }

  // Whenever the acknowledgement says start, every configured bucket has it; and
  // what it says is always the start of a run.
  ghost predicate Safe(s: Sys, cfg: Config, w: World, runs: seq<Run>) {
    && (forall start: int64, b :: Acknowledged(w, start) && IsBucket(cfg, b) ==> Holds(s, cfg, w, runs, b, start))
    && (ACK_KEY in w.consul.kv ==> exists i :: 0 <= i < |runs| && Acknowledged(w, runs[i].tick.start))
  }

  predicate Acknowledged(w: World, start: int64) {
    ACK_KEY in w.consul.kv && w.consul.kv[ACK_KEY] == FormatBytes(start)
  }

  lemma KeysDiffer(s: Sys, cfg: Config, a: int, b: int)
    requires '/' !in cfg.hostname && !cfg.acceptance
    ensures KeyOf(s, cfg, a) == KeyOf(s, cfg, b) <==> a == b
  {
    KeysAgreeIff(s, cfg, a, cfg, b);
  }

  lemma HoldsAfter(s: Sys, cfg: Config, w: World, w': World, runs: seq<Run>, r: Run, b: Bucket, start: int64)
    requires '/' !in cfg.hostname && !cfg.acceptance && Holds(s, cfg, w, runs, b, start)
    requires Sent(s, cfg, r.tick.start, Snapshot(s, cfg, r.client, r.tick), w, w')
    ensures Holds(s, cfg, w', runs + [r], b, start)
  {
    KeysDiffer(s, cfg, start, r.tick.start);
    var k := (b, KeyOf(s, cfg, start));
    assert k in w'.objects;
    var all := runs + [r];
    if w'.objects[k] != w.objects[k] {
      assert Made(s, cfg, all[|runs|], w'.objects[k]);
    } else {
      var i :| 0 <= i < |runs| && runs[i].tick.start == start && Made(s, cfg, runs[i], w.objects[k]);
      assert all[i] == runs[i];
    }
  }

  lemma HoldsAcked(s: Sys, cfg: Config, w: World, w': World, runs: seq<Run>, r: Run, b: Bucket)
    requires Acked(s, cfg, r.tick.start, Snapshot(s, cfg, r.client, r.tick), w, w') && IsBucket(cfg, b)
    ensures Holds(s, cfg, w', runs + [r], b, r.tick.start)
  {
    var all := runs + [r];
    assert all[|runs|] == r && Made(s, cfg, r, w'.objects[(b, KeyOf(s, cfg, r.tick.start))]);
  }

  lemma AckIsStart(w: World, a: int64, b: int64)
    requires Acknowledged(w, a) && Acknowledged(w, b)
    ensures a == b
  {
    FormatInjective(a, b);
  }

  lemma RanSafe(s: Sys, cfg: Config, w: World, runs: seq<Run>, r: Run, end: (World, bool))
    requires '/' !in cfg.hostname && !cfg.acceptance && Safe(s, cfg, w, runs)
    requires Ran(s, cfg, r.tick.start, Snapshot(s, cfg, r.client, r.tick), w, end)
    ensures Safe(s, cfg, end.0, runs + [r])
  {
    forall start: int64, b | Acknowledged(end.0, start) && IsBucket(cfg, b)
      ensures Holds(s, cfg, end.0, runs + [r], b, start)
    {
      if Acked(s, cfg, r.tick.start, Snapshot(s, cfg, r.client, r.tick), w, end.0) {
        assert Acknowledged(end.0, r.tick.start);
        AckIsStart(end.0, start, r.tick.start);
        HoldsAcked(s, cfg, w, end.0, runs, r, b);
      } else {
        assert Acknowledged(w, start);
        HoldsAfter(s, cfg, w, end.0, runs, r, b, start);
      }
    }
    if ACK_KEY in end.0.consul.kv {
      RanSays(s, cfg, w, runs, r, end);
    }
  }

  lemma RanSays(s: Sys, cfg: Config, w: World, runs: seq<Run>, r: Run, end: (World, bool))
    requires !cfg.acceptance && Safe(s, cfg, w, runs) && ACK_KEY in end.0.consul.kv
    requires Ran(s, cfg, r.tick.start, Snapshot(s, cfg, r.client, r.tick), w, end)
    ensures exists i :: 0 <= i < |runs + [r]| && Acknowledged(end.0, (runs + [r])[i].tick.start)
  {
    var all := runs + [r];
    if end.0.consul == w.consul {
      var i :| 0 <= i < |runs| && Acknowledged(w, runs[i].tick.start);
      assert all[i] == runs[i];
    } else {
      assert all[|runs|] == r;
    }
  }

  // ---- The shared client ----

  function LatestKeys(heard: seq<Listing>): Slice<KVPair> {
    if heard == [] then Nil
    else if heard[|heard| - 1].Keys? then heard[|heard| - 1].kvs
    else LatestKeys(heard[..|heard| - 1])
  }

  function LatestPQs(heard: seq<Listing>): Slice<PreparedQuery> {
    if heard == [] then Nil
    else if heard[|heard| - 1].PQs? then heard[|heard| - 1].pqs
    else LatestPQs(heard[..|heard| - 1])
  }

  function LatestACLs(heard: seq<Listing>): Slice<ACLEntry> {
    if heard == [] then Nil
    else if heard[|heard| - 1].ACLs? then heard[|heard| - 1].acls
    else LatestACLs(heard[..|heard| - 1])
  }

  // Each cached list is the latest one heard, and its length field is right.
  predicate Caches(c: Client, heard: seq<Listing>) {
    && c.keys == LatestKeys(heard) && c.keysLen == c.keys.Len()
    && c.pqs == LatestPQs(heard) && c.pqsLen == c.pqs.Len()
    && c.acls == LatestACLs(heard) && c.aclsLen == c.acls.Len()
  }

  predicate HeardKeys(heard: seq<Listing>) { exists i :: 0 <= i < |heard| && heard[i].Keys? }
  predicate HeardPQs(heard: seq<Listing>) { exists i :: 0 <= i < |heard| && heard[i].PQs? }
  predicate HeardACLs(heard: seq<Listing>) { exists i :: 0 <= i < |heard| && heard[i].ACLs? }

  lemma {:induction false} LatestIff(heard: seq<Listing>)
    ensures (Keys(LatestKeys(heard)) in heard <==> HeardKeys(heard)) && (HeardKeys(heard) || LatestKeys(heard) == Nil)
    ensures (PQs(LatestPQs(heard)) in heard <==> HeardPQs(heard)) && (HeardPQs(heard) || LatestPQs(heard) == Nil)
    ensures (ACLs(LatestACLs(heard)) in heard <==> HeardACLs(heard)) && (HeardACLs(heard) || LatestACLs(heard) == Nil)
  {
    if heard != [] {
      LatestIff(heard[..|heard| - 1]);
    }
  }

  // A cached list is one that Consul returned in full exactly if this process has
  // heard any of its family; if it has heard none, it is nil.
  lemma ListedIff(c: Client, heard: seq<Listing>)
    requires Caches(c, heard)
    ensures (Keys(c.keys) in heard <==> HeardKeys(heard)) && (HeardKeys(heard) || c.keys == Nil)
    ensures (PQs(c.pqs) in heard <==> HeardPQs(heard)) && (HeardPQs(heard) || c.pqs == Nil)
    ensures (ACLs(c.acls) in heard <==> HeardACLs(heard)) && (HeardACLs(heard) || c.acls == Nil)
  {
    LatestIff(heard);
  }

  lemma HearOne(heard: seq<Listing>, l: Listing)
    ensures LatestKeys(heard + [l]) == if l.Keys? then l.kvs else LatestKeys(heard)
    ensures LatestPQs(heard + [l]) == if l.PQs? then l.pqs else LatestPQs(heard)
    ensures LatestACLs(heard + [l]) == if l.ACLs? then l.acls else LatestACLs(heard)
  {
    assert (heard + [l])[..|heard|] == heard;
  }

  lemma KeysStep(s: Sys, w: World, c: Client, heard: seq<Listing>)
    requires Caches(c, heard)
    ensures Caches(ListKeysSpec(s, w, c).1, heard + Told(ListKeys(s, w).1, l => Keys(l)))
  {
    var l := ListKeys(s, w).1;
    assert heard + [] == heard;
    if l.Some? { HearOne(heard, Keys(l.value)); }
  }

  lemma PQsStep(s: Sys, w: World, c: Client, heard: seq<Listing>)
    requires Caches(c, heard)
    ensures Caches(ListPQsSpec(s, w, c).1, heard + Told(ListPQs(s, w).1, l => PQs(l)))
  {
    var l := ListPQs(s, w).1;
    assert heard + [] == heard;
    if l.Some? { HearOne(heard, PQs(l.value)); }
  }

  lemma ACLsStep(s: Sys, w: World, c: Client, heard: seq<Listing>)
    requires Caches(c, heard)
    ensures Caches(ListACLsSpec(s, w, c).1, heard + Told(ListACLs(s, w).1, l => ACLs(l)))
  {
    var l := ListACLs(s, w).1;
    assert heard + [] == heard;
    if l.Some? { HearOne(heard, ACLs(l.value)); }
  }

  lemma CollectCaches(s: Sys, w: World, c: Client, start: int64, heard: seq<Listing>)
    requires Caches(c, heard)
    ensures Caches(CollectSpec(s, w, c, start).1, heard + Heard(s, w))
  {
    KeysStep(s, w, c, heard);
    var k := ListKeysSpec(s, w, c);
    var h := heard + Told(ListKeys(s, w).1, l => Keys(l));
    PQsStep(s, k.0, k.1, h);
    var p := ListPQsSpec(s, k.0, k.1);
    ACLsStep(s, p.0, p.1, h + Told(ListPQs(s, k.0).1, l => PQs(l)));
    Regroup(heard, Told(ListKeys(s, w).1, l => Keys(l)), Told(ListPQs(s, k.0).1, l => PQs(l)),
      Told(ListACLs(s, p.0).1, l => ACLs(l)));
  }

  lemma Regroup<T>(a: seq<T>, b: seq<T>, c: seq<T>, d: seq<T>)
    ensures a + b + c + d == a + (b + c + d)
  {}

  // ---- Every reachable state ----

  // Each run so far archived the latest lists its process had heard.
  predicate Logged(runs: seq<Run>) {
    forall i :: 0 <= i < |runs| ==> Caches(runs[i].client, runs[i].heard)
  }

  // The invariant of every history.
  ghost predicate Fit(s: Sys, cfg: Config, x: State) {
    Tree(x.w.fs) && Safe(s, cfg, x.w, x.runs) && Caches(x.client, x.heard) && Logged(x.runs)
  }

  lemma RunFits(s: Sys, cfg: Config, x: State, run: Run, r: (World, bool), w: World)
    requires '/' !in cfg.hostname && !cfg.acceptance && Fit(s, cfg, x)
    requires Ran(s, cfg, run.tick.start, Snapshot(s, cfg, run.client, run.tick), x.w, r) && Tree(r.0.fs)
    requires Caches(run.client, run.heard) && w == if r.1 then r.0 else Halt(r.0)
    ensures Fit(s, cfg, State(w, run.client, run.heard, x.runs + [run]))
  {
    RanSafe(s, cfg, x.w, x.runs, run, r);
    SafeStays(s, cfg, r.0, w, x.runs + [run]);
    LoggedMore(x.runs, run);
  }

  lemma LoggedMore(runs: seq<Run>, run: Run)
    requires Logged(runs) && Caches(run.client, run.heard)
    ensures Logged(runs + [run])
  {}

  lemma WorkFit(s: Sys, cfg: Config, x: State, t: Tick)
    requires Lawful(s) && '/' !in cfg.hostname && !cfg.acceptance && Fit(s, cfg, x)
    ensures Fit(s, cfg, Step(s, cfg, x, Work(t)))
  {
    if x.w.alive {
      DoWorkMeaning(s, x.w, cfg, x.client, t);
      CollectCaches(s, x.w, x.client, t.start, x.heard);
      var r := DoWorkSpec(s, x.w, cfg, x.client, t);
      var run := Run(t, r.1, x.heard + Heard(s, x.w));
      RunFits(s, cfg, x, run, (r.0, r.2), if r.2 then r.0 else Halt(r.0));
    }
  }

  // Safety depends on the objects and the acknowledgement only.
  lemma SafeStays(s: Sys, cfg: Config, w: World, w': World, runs: seq<Run>)
    requires Safe(s, cfg, w, runs) && w'.objects == w.objects
    requires ACK_KEY in w'.consul.kv ==> ACK_KEY in w.consul.kv && w'.consul.kv[ACK_KEY] == w.consul.kv[ACK_KEY]
    ensures Safe(s, cfg, w', runs)
  {
    forall start: int64, b | Acknowledged(w', start) && IsBucket(cfg, b) ensures Holds(s, cfg, w', runs, b, start) {
      assert Acknowledged(w, start);
      assert Holds(s, cfg, w, runs, b, start);
    }
    if ACK_KEY in w'.consul.kv {
      var i :| 0 <= i < |runs| && Acknowledged(w, runs[i].tick.start);
      assert Acknowledged(w', runs[i].tick.start);
    }
  }

  // A run writes down, in every list it archives, the latest complete listing.
  lemma WorkWritesLatest(s: Sys, cfg: Config, x: State, t: Tick, r: (World, Client, bool))
    requires Lawful(s) && '/' !in cfg.hostname && Fit(s, cfg, x) && r == DoWorkSpec(s, x.w, cfg, x.client, t)
    ensures Caches(r.1, x.heard + Heard(s, x.w)) && Ran(s, cfg, t.start, Snapshot(s, cfg, r.1, t), x.w, (r.0, r.2))
  {
    DoWorkMeaning(s, x.w, cfg, x.client, t);
    CollectCaches(s, x.w, x.client, t.start, x.heard);
  }

  lemma StepFit(s: Sys, cfg: Config, x: State, e: Event)
    requires Lawful(s) && '/' !in cfg.hostname && !cfg.acceptance && Fit(s, cfg, x)
    ensures Fit(s, cfg, Step(s, cfg, x, e))
  {
    match e
    case Work(t) => WorkFit(s, cfg, x, t);
    case Restart => SafeStays(s, cfg, x.w, x.w.(alive := true), x.runs);
    case Others(store) => SafeStays(s, cfg, x.w, x.w.(consul := Blend(x.w.consul, store)), x.runs);
  }

  lemma StepsFit(s: Sys, cfg: Config, f: Transition, inv: State -> bool)
    requires Lawful(s) && '/' !in cfg.hostname && !cfg.acceptance
    requires f == StepOf(s, cfg) && forall y :: inv(y) == Fit(s, cfg, y)
    ensures forall y, e :: inv(y) ==> inv(f(y, e))
  {
    forall y: State, e: Event | inv(y) ensures inv(f(y, e)) {
      StepFit(s, cfg, y, e);
    }
  }

  lemma FoldFits(s: Sys, cfg: Config, f: Transition, inv: State -> bool, x: State, events: seq<Event>)
    requires Lawful(s) && '/' !in cfg.hostname && !cfg.acceptance
    requires f == StepOf(s, cfg) && (forall y :: inv(y) == Fit(s, cfg, y)) && inv(x)
    ensures inv(Fold(f, x, events))
  {
    StepsFit(s, cfg, f, inv);
    FoldKeeps(f, inv, e => true, x, events);
  }

  // A new daemon over a store that holds no acknowledgement.
  lemma StartFits(s: Sys, cfg: Config, w: World)
    requires Tree(w.fs) && ACK_KEY !in w.consul.kv
    ensures Fit(s, cfg, Start(w))
  {}

  lemma AlwaysFit(s: Sys, cfg: Config, x: State, events: seq<Event>)
    requires Lawful(s) && '/' !in cfg.hostname && !cfg.acceptance && Fit(s, cfg, x)
    ensures Fit(s, cfg, History(s, cfg, x, events))
  {
    FoldFits(s, cfg, StepOf(s, cfg), y => Fit(s, cfg, y), x, events);
  }

  // x is where a daemon can get to from such a start.
  ghost predicate Reachable(s: Sys, cfg: Config, x: State) {
    exists w: World, events: seq<Event> ::
      Tree(w.fs) && ACK_KEY !in w.consul.kv && x == History(s, cfg, Start(w), events)
  }

  // In every reachable state: what the acknowledgement names is in every bucket,
  // the archive of a run of this history that started then, of the latest lists
  // that run's process had heard; no later run has taken it away.
  lemma DaemonIsSafe(s: Sys, cfg: Config, x: State)
    requires Lawful(s) && '/' !in cfg.hostname && !cfg.acceptance && Reachable(s, cfg, x)
    ensures Fit(s, cfg, x)
  {
    var w: World, events: seq<Event> :|
      Tree(w.fs) && ACK_KEY !in w.consul.kv && x == History(s, cfg, Start(w), events);
    StartFits(s, cfg, w);
    AlwaysFit(s, cfg, Start(w), events);
  }

  // ---- The bytes stay ----

  // Runs that start at other times leave the objects of this one as they are.
  predicate NoTickAt(events: seq<Event>, start: int) {
    forall i :: 0 <= i < |events| && events[i].Work? ==> events[i].tick.start != start
  }

  ghost predicate Keeps(x: World, y: World, k: Place) {
    Tree(y.fs) && k in x.objects && k in y.objects && y.objects[k] == x.objects[k]
  }

  lemma StepKeepsBytes(s: Sys, cfg: Config, x: State, e: Event, k: Place, start: int)
    requires Lawful(s) && '/' !in cfg.hostname && !cfg.acceptance && Tree(x.w.fs)
    requires e.Work? ==> e.tick.start != start
    requires k.1 == KeyOf(s, cfg, start) && k in x.w.objects
    ensures Keeps(x.w, Step(s, cfg, x, e).w, k)
  {
    if e.Work? && x.w.alive {
      KeysDiffer(s, cfg, start, e.tick.start);
      DoWorkMeaning(s, x.w, cfg, x.client, e.tick);
    }
  }

  lemma BytesStay(s: Sys, cfg: Config, x: State, events: seq<Event>, k: Place, start: int)
    requires Lawful(s) && '/' !in cfg.hostname && !cfg.acceptance && Tree(x.w.fs)
    requires NoTickAt(events, start) && k.1 == KeyOf(s, cfg, start) && k in x.w.objects
    ensures Keeps(x.w, History(s, cfg, x, events).w, k)
  {
    forall y: State, e: Event | Keeps(x.w, y.w, k) && (e.Work? ==> e.tick.start != start)
      ensures Keeps(x.w, StepOf(s, cfg)(y, e).w, k)
    {
      StepKeepsBytes(s, cfg, y, e, k, start);
    }
    FoldKeeps(StepOf(s, cfg), (y: State) => Keeps(x.w, y.w, k), (e: Event) => e.Work? ==> e.tick.start != start,
      x, events);
  }

  // ---- The program's loop is such a history ----

  function Works(ticks: seq<Tick>): seq<Event> { seq(|ticks|, i requires 0 <= i < |ticks| => Work(ticks[i])) }

  // A loop that ends with the process.
  function Loop(f: Transition, x: State, ticks: seq<Tick>): State
    decreases |ticks|
  {
    if ticks == [] || !x.w.alive then x else Loop(f, f(x, Work(ticks[0])), ticks[1..])
  }

  lemma {:induction false} LoopIsFold(f: Transition, x: State, ticks: seq<Tick>)
    requires forall y: State, e: Event :: e.Work? && !y.w.alive ==> f(y, e) == y
    ensures Loop(f, x, ticks) == Fold(f, x, Works(ticks))
    decreases |ticks|
  {
    if ticks != [] {
      assert Works(ticks) == [Work(ticks[0])] + Works(ticks[1..]);
      FoldFirst(f, x, Work(ticks[0]), Works(ticks[1..]));
      LoopIsFold(f, f(x, Work(ticks[0])), ticks[1..]);
      if !x.w.alive && |ticks| > 1 {
        assert Loop(f, x, ticks[1..]) == x;
      }
    }
  }

  lemma {:induction false} RunnerIsLoop(s: Sys, cfg: Config, f: Transition, x: State, ticks: seq<Tick>)
    requires forall y, e :: f(y, e) == Step(s, cfg, y, e)
    ensures var y := Loop(f, x, ticks); RunnerSpec(s, x.w, cfg, x.client, ticks) == (y.w, y.client)
    decreases |ticks|
  {
    if ticks != [] && x.w.alive {
      var y := f(x, Work(ticks[0]));
      RunnerIsLoop(s, cfg, f, y, ticks[1..]);
      RunnerFirst(s, cfg, x, ticks, y);
    }
  }

  lemma RunnerFirst(s: Sys, cfg: Config, x: State, ticks: seq<Tick>, y: State)
    requires ticks != [] && x.w.alive && y == Step(s, cfg, x, Work(ticks[0]))
    ensures RunnerSpec(s, x.w, cfg, x.client, ticks) == RunnerSpec(s, y.w, cfg, y.client, ticks[1..])
  {}

  lemma RunnerIsHistory(s: Sys, cfg: Config, x: State, ticks: seq<Tick>)
    ensures var y := History(s, cfg, x, Works(ticks)); RunnerSpec(s, x.w, cfg, x.client, ticks) == (y.w, y.client)
  {
    RunnerIsLoop(s, cfg, StepOf(s, cfg), x, ticks);
    LoopIsFold(StepOf(s, cfg), x, ticks);
  }
}
