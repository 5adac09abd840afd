/**
 health/health.go: the health check's decision, and how the daemon's timing
 bounds the age it sees.
 */
module Health {
  import opened Wrappers
  import opened Decimal
  import Float64

  const MAX_AGE := 3600

  // Everything but Healthy is an HTTP 500.
  datatype Response = NoBackup | Unreadable | Stale | Healthy(age: int)

  // int64 arithmetic wraps around.
  function Wrap64(n: int): int64 {
    (n - MIN_INT64) % 0x1_0000_0000_0000_0000 + MIN_INT64
  }

  // The decision for the stored value (None: missing, or the read failed).
  function Decide(stored: Option<string>, now: int64): Response {
    match stored
    case None => NoBackup
    case Some(text) =>
      match ParseInt64(text)
      case None => Unreadable
      case Some(t) =>
        var diff := Wrap64(now - t);
        if diff > MAX_AGE then Stale else Healthy(diff)
  }

  // Told that there is no backup exactly if none is stored, and that the value is
  // unreadable exactly if it is no 64-bit number.
  predicate Reports(stored: Option<string>, r: Response) {
    && (r.NoBackup? <==> stored.None?)
    && (r.Unreadable? <==> stored.Some? && ParseInt64(stored.value).None?)
  }

  // For a time the daemon wrote, told that it is stale exactly if more than an
  // hour has passed since, and else its age.
  predicate TellsAge(t: int64, now: int64, r: Response) {
    (r.Stale? <==> now - t > 3600) && (r.Healthy? <==> now - t <= 3600) && (r.Healthy? ==> r.age == now - t)
  }

  method Handler(lastBackup: Option<string>, now: int64) returns (r: Response)
    ensures Reports(lastBackup, r)
    ensures forall t: int64 ::
              lastBackup == Some(Format(t)) && MIN_INT64 <= now - t <= MAX_INT64 ==> TellsAge(t, now, r)
    ensures r == Decide(lastBackup, now)
  {
    forall t: int64 | lastBackup == Some(Format(t)) && MIN_INT64 <= now - t <= MAX_INT64
      ensures TellsAge(t, now, Decide(lastBackup, now))
    {
      DecideTells(t, now);
    }
    if lastBackup.None? { return NoBackup; }
    var timestamp := ParseInt64(lastBackup.value);
    if timestamp.None? { return Unreadable; }
    var timediff := Wrap64(now - timestamp.value);
    if timediff > MAX_AGE { return Stale; }
    return Healthy(timediff);
  }

  lemma DecideTells(t: int64, now: int64)
    requires MIN_INT64 <= now - t <= MAX_INT64
    ensures TellsAge(t, now, Decide(Some(Format(t)), now))
  {
    ParseInt64Format(t);
  }

  // For every value the daemon can write, the verdict is the true one exactly
  // when the subtraction does not overflow.
  lemma VerdictExactIff(t: int64, now: int64)
    ensures Decide(Some(Format(t)), now) == (if now - t > MAX_AGE then Stale else Healthy(now - t))
        <==> MIN_INT64 <= now - t <= MAX_INT64
  {
    ParseInt64Format(t);
  }

  // ---- Timing, in nanoseconds ----

  const SECOND: int := 1_000_000_000

  // time.Time.Unix floors to seconds.
  function Unix(t: int): int { t / SECOND }

  // One backup: when it starts, writes its acknowledgement and returns.
  datatype Job = Job(start: int, ack: int, finish: int)

  // A ticker fires at zero + interval, zero + 2 * interval, ...
  function FirstTickAfter(zero: int, interval: int, x: int): int
    requires interval > 0
  {
    x + interval - (x - zero) % interval
  }

  // Its channel holds one tick: if one fell during the job the next starts at
  // once (further ones were dropped), otherwise it waits.
  function NextStart(zero: int, interval: int, job: Job): int
    requires interval > 0
  {
    var tick := FirstTickAfter(zero, interval, job.start);
    if tick <= job.finish then job.finish else tick
  }

  // A daemon whose every backup succeeds within `limit`.
  ghost predicate DaemonRun(jobs: nat -> Job, zero: int, interval: int, limit: int)
    requires interval > 0
  {
    && jobs(0).start >= 0 && (jobs(0).start - zero) % interval == 0
    && (forall k: nat :: jobs(k).start <= jobs(k).ack <= jobs(k).finish <= jobs(k).start + limit)
    && (forall k: nat :: jobs(k + 1).start == NextStart(zero, interval, jobs(k)))
  }

  // At x the last acknowledgement is that of job k.
  ghost predicate Sees(jobs: nat -> Job, k: nat, x: int) {
    jobs(k).ack <= x < jobs(k + 1).ack && 0 <= Unix(jobs(k).start) && Unix(x) <= MAX_INT64
  }

  ghost predicate NeverStale(interval: int, limit: int)
    requires interval > 0
  {
    forall jobs: nat -> Job, zero: int, k: nat, x: int ::
      DaemonRun(jobs, zero, interval, limit) && Sees(jobs, k, x) ==>
        Unix(jobs(k).start) <= Unix(x) &&
        Decide(Some(Format(Unix(jobs(k).start))), Unix(x)).Healthy?
  }

  function Max(a: int, b: int): int { if a > b then a else b }

  lemma NextStartBound(zero: int, interval: int, limit: int, job: Job)
    requires interval > 0 && job.finish <= job.start + limit
    ensures NextStart(zero, interval, job) <= job.start + Max(interval, limit)
  {}

  lemma HealthyUpTo(start: int, x: int)
    requires 0 <= Unix(start) && start <= x <= start + MAX_AGE * SECOND && Unix(x) <= MAX_INT64
    ensures Unix(start) <= Unix(x) && Decide(Some(Format(Unix(start))), Unix(x)).Healthy?
  {
    assert Unix(x) <= Unix(start + MAX_AGE * SECOND) == Unix(start) + MAX_AGE;
    VerdictExactIff(Unix(start), Unix(x));
  }

  lemma BoundSuffices(interval: int, limit: int)
    requires interval > 0
    requires Max(interval, limit) + limit <= MAX_AGE * SECOND + 1
    ensures NeverStale(interval, limit)
  {
    forall jobs: nat -> Job, zero: int, k: nat, x: int
      | DaemonRun(jobs, zero, interval, limit) && Sees(jobs, k, x)
      ensures Unix(jobs(k).start) <= Unix(x) && Decide(Some(Format(Unix(jobs(k).start))), Unix(x)).Healthy?
    {
      NextStartBound(zero, interval, limit, jobs(k));
      HealthyUpTo(jobs(k).start, x);
    }
  }

  // The slowest daemon: each job takes the whole limit.
  function Slowest(interval: int, limit: int): nat -> Job {
    (k: nat) =>
      var start := SECOND - 1 + k * Max(interval, limit);
      Job(start, start + limit, start + limit)
  }

  lemma SlowestIsARun(interval: int, limit: int)
    requires interval > 0 && limit >= 0
    ensures DaemonRun(Slowest(interval, limit), SECOND - 1 - interval, interval, limit)
  {
    var jobs, zero := Slowest(interval, limit), SECOND - 1 - interval;
    assert jobs(0).start == SECOND - 1 by { assert 0 * Max(interval, limit) == 0; }
    forall k: nat ensures jobs(k + 1).start == NextStart(zero, interval, jobs(k)) {
      assert (k + 1) * Max(interval, limit) == k * Max(interval, limit) + Max(interval, limit);
      if limit <= interval {
        assert jobs(k).start - zero == k * interval + interval;
        Float64.DivUnique(jobs(k).start - zero, interval, k + 1, 0);
      }
    }
  }

  lemma BoundNecessary(interval: int, limit: int)
    requires 0 < interval <= MAX_INT64 && 0 <= limit <= MAX_INT64
    requires Max(interval, limit) + limit > MAX_AGE * SECOND + 1
    ensures !NeverStale(interval, limit)
  {
    var jobs, zero := Slowest(interval, limit), SECOND - 1 - interval;
    SlowestIsARun(interval, limit);
    var start := SECOND - 1;
    assert jobs(0).start == start by { assert 0 * Max(interval, limit) == 0; }
    assert jobs(0 + 1).start == start + Max(interval, limit);
    var x := Max(start + limit, start + MAX_AGE * SECOND + 1);
    assert Sees(jobs, 0, x);
    assert Unix(start) == 0 && Unix(x) > MAX_AGE;
    VerdictExactIff(0, Unix(x));
  }

  // With backups that take at most `limit`, the check never reports a stale
  // backup after the first acknowledgement exactly when this bound holds.
  lemma NeverStaleIff(interval: int, limit: int)
    requires 0 < interval <= MAX_INT64 && 0 <= limit <= MAX_INT64
    ensures NeverStale(interval, limit) <==> Max(interval, limit) + limit <= MAX_AGE * SECOND + 1
  {
    if Max(interval, limit) + limit <= MAX_AGE * SECOND + 1 {
      BoundSuffices(interval, limit);
    } else {
      BoundNecessary(interval, limit);
    }
  }
}
