/**
 What the health check says about the daemon: a healthy answer means a stored
 backup, and what it cannot see.
 */
module Watch {
  import opened Wrappers
  import opened Decimal
  import opened World
  import opened Config
  import opened ConsulClient
  import opened Health
  import opened LegacyBackup
  import opened LegacyBackupFacts
  import opened LegacyRoundTrip
  import opened Daemon

  // What the check reads.
  function Stored(w: World): Option<string> {
    if ACK_KEY in w.consul.kv then Some(w.consul.kv[ACK_KEY]) else None
  }

  // What the check answers.
  function Check(w: World, now: int64): Response { Decide(Stored(w), now) }

  lemma StoredTime(w: World, start: int64)
    requires Acknowledged(w, start)
    ensures Stored(w) == Some(Format(start))
  {}

  // This time is a run's, and every configured bucket holds the archive of one
  // that started then.
  ghost predicate Backed(s: Sys, cfg: Config, x: State, start: int64) {
    && Acknowledged(x.w, start)
    && (exists i :: 0 <= i < |x.runs| && x.runs[i].tick.start == start)
    && (forall b :: IsBucket(cfg, b) ==> Holds(s, cfg, x.w, x.runs, b, start))
  }

  // What an answer means. The age is that of a stored backup, and true unless the
  // subtraction overflows.
  ghost predicate Means(s: Sys, cfg: Config, x: State, now: int64, r: Response) {
    match r
    case NoBackup => ACK_KEY !in x.w.consul.kv
    case Unreadable => false
    case Stale => exists start: int64 :: Backed(s, cfg, x, start) && Wrap64(now - start) > MAX_AGE
    case Healthy(age) => exists start: int64 :: Backed(s, cfg, x, start) && Wrap64(now - start) == age <= MAX_AGE
  }

  // Whatever the daemon has been through, the answer is about a backup that is
  // there, and never that the stored time is unreadable.
  lemma AnswerMeans(s: Sys, cfg: Config, x: State, now: int64, r: Response)
    requires Lawful(s) && '/' !in cfg.hostname && !cfg.acceptance && Reachable(s, cfg, x) && Check(x.w, now) == r
    ensures Means(s, cfg, x, now, r)
  {
    DaemonIsSafe(s, cfg, x);
    if ACK_KEY in x.w.consul.kv {
      var start := Behind(s, cfg, x);
      BackedMeans(s, cfg, x, now, start, r);
    }
  }

  lemma Behind(s: Sys, cfg: Config, x: State) returns (start: int64)
    requires Fit(s, cfg, x) && ACK_KEY in x.w.consul.kv
    ensures Backed(s, cfg, x, start) && Stored(x.w) == Some(Format(start))
  {
    var i :| 0 <= i < |x.runs| && Acknowledged(x.w, x.runs[i].tick.start);
    start := x.runs[i].tick.start;
    StoredTime(x.w, start);
  }

  lemma Answer(start: int64, now: int64)
    ensures Decide(Some(Format(start)), now) ==
            if Wrap64(now - start) > MAX_AGE then Stale else Healthy(Wrap64(now - start))
  {
    ParseInt64Format(start);
  }

  lemma BackedMeans(s: Sys, cfg: Config, x: State, now: int64, start: int64, r: Response)
    requires Backed(s, cfg, x, start) && Stored(x.w) == Some(Format(start)) && Check(x.w, now) == r
    ensures Means(s, cfg, x, now, r)
  {
    Answer(start, now);
  }

  lemma WrapExact(n: int)
    requires MIN_INT64 <= n <= MAX_INT64
    ensures Wrap64(n) == n
  {}

  // The starts of all runs are at a distance from now that 64 bits hold.
  ghost predicate Near(x: State, now: int64) {
    forall i :: 0 <= i < |x.runs| ==> MIN_INT64 <= now - x.runs[i].tick.start <= MAX_INT64
  }

  lemma SoleTime(x: State, now: int64, age: int, start: int, t: int64)
    requires Near(x, now) && start == now - age && Wrap64(now - t) == age
    requires exists i :: 0 <= i < |x.runs| && x.runs[i].tick.start == t
    ensures t == start
  {
    WrapExact(now - t);
  }

  lemma HealthyIsBacked(s: Sys, cfg: Config, x: State, now: int64, age: int, start: int)
    requires Means(s, cfg, x, now, Healthy(age)) && Near(x, now) && start == now - age
    ensures MIN_INT64 <= start <= MAX_INT64 && Backed(s, cfg, x, start) && Acknowledged(x.w, start)
  {
    var t: int64 :| Backed(s, cfg, x, t) && Wrap64(now - t) == age <= MAX_AGE;
    SoleTime(x, now, age, start, t);
  }

  // If the answer is "healthy, this old" then, barring overflow, restoring the
  // backup of that age from any configured bucket brings back the keys that a run
  // started then had listed.
  lemma HealthyIsRestorable(s: Sys, cfg: Config, x: State, now: int64, age: int, start: int64, z: Sys, w: World,
                            cfg': Config, dir: string, base: string)
    requires !cfg.acceptance && Reachable(s, cfg, x) && Check(x.w, now) == Healthy(age)
    requires start == now - age && Restoring(s, cfg, start, z, w, cfg', dir, base)
    requires Near(x, now)
    requires StillHas(s, cfg, x, start, w, cfg')
    ensures BringsBack(s, cfg, x, start, z, w, cfg')
  {
    AnswerMeans(s, cfg, x, now, Healthy(age));
    HealthyIsBacked(s, cfg, x, now, age, start);
    AcknowledgedIsRestorable(s, cfg, x, start, z, w, cfg', dir, base);
  }

  // The process has heard nothing, and the next three calls, its listings, fail.
  ghost predicate Deaf(s: Sys, cfg: Config, w: World, c: Client, t: Tick) {
    && c == NEW_CLIENT && w.alive && Tree(w.fs) && Clearance(s, w, cfg, t.start)
    && (forall i :: w.calls <= i < w.calls + 3 ==> s.fault(i) == Fails) && FineFrom(s, w.calls + 3)
  }

  lemma DeafIsAcked(s: Sys, cfg: Config, w: World, c: Client, t: Tick, r: (World, Client, bool))
    requires Lawful(s) && !cfg.acceptance && Deaf(s, cfg, w, c, t) && r == DoWorkSpec(s, w, cfg, c, t)
    ensures r.2 && r.0.alive && r.1 == NEW_CLIENT && Acked(s, cfg, t.start, Snapshot(s, cfg, NEW_CLIENT, t), w, r.0)
  {
    UnlistedCompletes(s, w, cfg, c, t);
    DoWorkMeaning(s, w, cfg, c, t);
  }

  // What the check cannot see: a new process of which nothing fails but its three
  // listings archives three nil lists, acknowledges them, and is healthy.
  lemma EmptyIsHealthy(s: Sys, cfg: Config, w: World, c: Client, t: Tick, now: int64, age: int,
                       r: (World, Client, bool))
    requires Lawful(s) && !cfg.acceptance && Deaf(s, cfg, w, c, t) && r == DoWorkSpec(s, w, cfg, c, t)
    requires age == now - t.start && 0 <= age <= MAX_AGE
    ensures r.2 && r.1 == NEW_CLIENT && Kept(cfg, r.1) == Nil
    ensures Acked(s, cfg, t.start, Snapshot(s, cfg, NEW_CLIENT, t), w, r.0)
    ensures Check(r.0, now) == Healthy(age)
  {
    DeafIsAcked(s, cfg, w, c, t, r);
    YoungIsHealthy(r.0, t.start, now, age);
  }

  lemma YoungIsHealthy(w: World, start: int64, now: int64, age: int)
    requires Acknowledged(w, start) && age == now - start && 0 <= age <= MAX_AGE
    ensures Check(w, now) == Healthy(age)
  {
    StoredTime(w, start);
    Answer(start, now);
    WrapExact(now - start);
  }
}
