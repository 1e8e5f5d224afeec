/** The job table: one row per idempotency key.

    The statements of queue.go are given as functions on the table, and the
    class `JobTable` carries them out on its fields. The serial row id is left
    out: the idempotency key is NOT NULL UNIQUE and names the row just as well. */
module Queue {
  import opened Domain

  const PAYOUT: string := "payout"
  const SLACK_NOTIFY: string := "slack_notify"

  const DEFAULT_MAX_ATTEMPTS: int := 8

  datatype JobStatus = Pending | Claimed | Done | Dead

  datatype Job = Job(
    kind: string,
    payload: Id,
    status: JobStatus,
    attempts: int,
    maxAttempts: int,
    runAt: int,
    leasedUntil: Option<int>,
    worker: Option<string>,
    lastError: Option<string>)

  type Table = map<string, Job>

  datatype EnqueueParams = EnqueueParams(key: string, kind: string, payload: Id, maxAttempts: int, runAt: Option<int>)

  datatype QueueError = Duplicate

  /* ------------------------------------------------------------ statements */

  function NewRow(now: int, p: EnqueueParams): Job {
    Job(p.kind, p.payload, Pending, 0,
        if p.maxAttempts == 0 then DEFAULT_MAX_ATTEMPTS else p.maxAttempts,
        p.runAt.GetOr(now), None, None, None)
  }

  /** Nobody has touched the row: pending from the time given, never attempted, and
      allowed the attempts asked for, or eight where none are. */
  ghost predicate NewlyQueued(j: Job, kind: string, payload: Id, asked: int, due: int) {
    && j.kind == kind && j.payload == payload && j.status == Pending && j.attempts == 0
    && j.maxAttempts == (if asked != 0 then asked else 8)
    && j.leasedUntil == None && j.worker == None && j.lastError == None
    && forall t :: Runnable(j, t) <==> due <= t
  }

  function Enqueued(t: Table, now: int, p: EnqueueParams): Result<Table, QueueError> {
    if p.key in t then Err(Duplicate) else Ok(t[p.key := NewRow(now, p)])
  }

  predicate Runnable(j: Job, now: int) {
    && j.runAt <= now
    && (|| j.status == Pending
        || (j.status == Claimed && j.leasedUntil.Some? && j.leasedUntil.value < now))
  }

  /** The rows the inner SELECT may lock: runnable and not held by a concurrent
      claim (SKIP LOCKED). */
  function Ready(t: Table, now: int, locked: set<string>): set<string> {
    set k | k in t && Runnable(t[k], now) && k !in locked
  }

  /** `picked` is a possible answer of ORDER BY run_at ... LIMIT n. */
  ghost predicate ClaimPicks(t: Table, now: int, n: nat, locked: set<string>, picked: set<string>) {
    var ready := Ready(t, now, locked);
    && picked <= ready
    && |picked| == Min(n, |ready|)
    && forall p, q | p in picked && q in ready - picked :: t[p].runAt <= t[q].runAt
  }

  function WholeSeconds(ms: int): int {
    if ms >= 0 then ms / 1000 * 1000 else -(-ms / 1000 * 1000)
  }

  /** Milliseconds cut to whole seconds, towards zero. */
  lemma SecondsWithin(ms: int)
    ensures WholeSeconds(ms) % 1000 == 0
    ensures ms >= 0 ==> ms - 1000 < WholeSeconds(ms) <= ms
    ensures ms <= 0 ==> ms <= WholeSeconds(ms) < ms + 1000
  {
  }

  function ClaimedRow(j: Job, worker: string, until: int): Job {
    j.(status := Claimed, attempts := j.attempts + 1, leasedUntil := Some(until), worker := Some(worker))
  }

  function ClaimedRows(t: Table, worker: string, until: int, picked: set<string>): Table {
    map k | k in t :: if k in picked then ClaimedRow(t[k], worker, until) else t[k]
  }

  function CompletedRow(j: Job): Job {
    j.(status := Done, leasedUntil := None, worker := None)
  }

  function RescheduledRow(j: Job, now: int, delay: int): Job {
    j.(status := Pending, runAt := now + WholeSeconds(delay),
       attempts := if j.attempts - 1 > 0 then j.attempts - 1 else 0,
       leasedUntil := None, worker := None)
  }

  function DeadRow(j: Job, cause: string): Job {
    j.(status := Dead, lastError := Some(cause), leasedUntil := None, worker := None)
  }

  function RetriedRow(j: Job, now: int, delay: int, cause: string): Job {
    j.(status := Pending, runAt := now + delay, lastError := Some(cause), leasedUntil := None, worker := None)
  }

  /** `attempts` and `maxAttempts` are the caller's copy of the job, not the row's. */
  function FailedRow(j: Job, now: int, attempts: int, maxAttempts: int, delay: int, cause: string): Job {
    if attempts >= maxAttempts then DeadRow(j, cause) else RetriedRow(j, now, delay, cause)
  }

  /* --------------------------------------------------------------- backoff */

  function Pow2(n: nat): (p: int)
    ensures p >= 1
  {
    if n == 0 then 1 else 2 * Pow2(n - 1)
  }

  /** The delay before jitter: doubling from `base`, capped at `cap`. */
  function Envelope(base: int, cap: int, attempt: int): int {
    var a := if attempt < 1 then 1 else attempt;
    var d := base * Pow2(a - 1);
    if d > cap || d <= 0 then cap else d
  }

  /** The envelope is the exact minimum for every attempt number and never
      shrinks as attempts grow. */
  lemma EnvelopeGrows(base: int, cap: int, attempt: int, later: int)
    requires base > 0 && attempt <= later
    ensures Envelope(base, cap, attempt) <= Envelope(base, cap, later) <= cap
    ensures Envelope(base, cap, attempt) == Min(base * Pow2(if attempt < 1 then 0 else attempt - 1), cap)
    ensures Envelope(base, cap, 1) == Min(base, cap)
    ensures attempt >= 1 && cap >= 0 ==> Envelope(base, cap, attempt + 1) == Min(2 * Envelope(base, cap, attempt), cap)
  {
    var a := if attempt < 1 then 1 else attempt;
    var b := if later < 1 then 1 else later;
    Pow2Grows(base, a - 1, b - 1);
    Pow2Grows(base, 0, a - 1);
    assert base * Pow2(a) == 2 * (base * Pow2(a - 1));
  }

  lemma {:induction false} Pow2Grows(base: int, m: nat, n: nat)
    requires base > 0 && m <= n
    ensures 0 < base * Pow2(m) <= base * Pow2(n)
  {
    if m < n {
      Pow2Grows(base, m, n - 1);
      assert base * Pow2(n) == 2 * (base * Pow2(n - 1));
    } else {
      assert base * Pow2(m) >= base * 1;
    }
  }

  function Quarter(d: int): int {
    if d >= 0 then d / 4 else -(-d / 4)
  }

  /** Spreads `d` over its upper three quarters. `draw` is what the random source
      returned; only its residue is used. */
  function Jittered(d: int, draw: nat): (delay: int)
    ensures if d > 0 then d / 4 <= delay < d else delay == d
  {
    var span := d - Quarter(d);
    if span <= 0 then d else Quarter(d) + draw % span
  }

  /** Every delay from a quarter of the envelope up to it is some draw's. */
  lemma JitterReaches(d: int, delay: int)
    requires d > 0 && d / 4 <= delay < d
    ensures exists draw :: Jittered(d, draw) == delay
  {
    var draw, span := delay - d / 4, d - d / 4;
    SmallResidue(draw, span);
    assert Jittered(d, draw) == d / 4 + draw % span;
  }

  lemma SmallResidue(n: nat, m: nat)
    requires n < m
    ensures n % m == n
  {
  }

  method Backoff(base: int, cap: int, attempt: int, draw: nat) returns (delay: int)
    ensures delay == Jittered(Envelope(base, cap, attempt), draw)
  {
    var a := attempt;
    if a < 1 {
      a := 1;
    }
    var d := base * Pow2(a - 1);
    if d > cap || d <= 0 {
      d := cap;
    }
    var floor := Quarter(d);
    var span := d - floor;
    if span <= 0 {
      return d;
    }
    delay := floor + draw % span;
  }

  /** When each ending lets the job run again: done and dead never; a retry not
      before a quarter of its envelope has passed and no later than all of it; a
      reschedule after its whole seconds; a lease only once it has run out. */
  lemma RunnableAgain(j: Job, now: int, attempts: int, maxAttempts: int, base: int, cap: int, draw: nat, cause: string,
                      delay: int, worker: string, until: int, later: int)
    requires base > 0 && cap > 0
    ensures !Runnable(CompletedRow(j), later)
    ensures var d := Envelope(base, cap, attempts);
            var failed := FailedRow(j, now, attempts, maxAttempts, Jittered(d, draw), cause);
            && (attempts >= maxAttempts ==> !Runnable(failed, later))
            && (attempts < maxAttempts ==>
                  && (later < now + d / 4 ==> !Runnable(failed, later))
                  && (later >= now + d ==> Runnable(failed, later)))
    ensures Runnable(RescheduledRow(j, now, delay), later) <==> later >= now + WholeSeconds(delay)
    ensures Runnable(ClaimedRow(j, worker, until), later) <==> j.runAt <= later && until < later
  {
    hide Pow2;
    EnvelopeGrows(base, cap, attempts, attempts);
    Pow2Grows(base, 0, if attempts < 1 then 0 else attempts - 1);
  }

  /* ------------------------------------------------------------- the table */

  /** A ready row left behind means a full batch of rows no younger. */
  lemma PickedOrOlder(t: Table, now: int, n: nat, locked: set<string>, picked: set<string>)
    requires ClaimPicks(t, now, n, locked, picked)
    ensures |picked| <= n && picked <= Ready(t, now, locked)
    ensures forall k | k in Ready(t, now, locked) && k !in picked ::
              |picked| == n && forall p | p in picked :: t[p].runAt <= t[k].runAt
  {
    var ready := Ready(t, now, locked);
    forall k | k in ready && k !in picked ensures |picked| == n {
      Fewer(picked, ready, k);
    }
  }

  lemma {:induction false} Fewer(a: set<string>, b: set<string>, k: string)
    requires a <= b && k in b && k !in a
    ensures |a| < |b|
    decreases a
  {
    if a == {} {
      assert |b - {k}| == |b| - 1;
    } else {
      var x :| x in a;
      Fewer(a - {x}, b - {x}, k);
    }
  }

  class JobTable {
    var jobs: Table
    var now: int
    const lease: nat
    const baseBackoff: int
    const maxBackoff: int

    constructor (lease: nat, baseBackoff: int, maxBackoff: int)
      ensures jobs == map[]
      ensures this.lease == lease && this.baseBackoff == baseBackoff && this.maxBackoff == maxBackoff
    {
      jobs := map[];
      now := 0;
      this.lease := lease;
      this.baseBackoff := baseBackoff;
      this.maxBackoff := maxBackoff;
    }

    method EnqueueTx(p: EnqueueParams) returns (err: Option<QueueError>)
      modifies this`jobs
      ensures match Enqueued(old(jobs), now, p)
              case Ok(t) => err == None && jobs == t
              case Err(e) => err == Some(e) && jobs == old(jobs)
      ensures err == None <==> p.key !in old(jobs)
      ensures err == None ==>
                && p.key in jobs && jobs == old(jobs)[p.key := jobs[p.key]]
                && NewlyQueued(jobs[p.key], p.kind, p.payload, p.maxAttempts, p.runAt.GetOr(now))
    {
      var row := NewRow(now, p);
      if p.key in jobs {
        return Some(Duplicate);
      }
      jobs := jobs[p.key := row];
      err := None;
    }

    /** The oldest of a set of rows. */
    method Oldest(ready: set<string>) returns (oldest: string)
      requires ready != {} && ready <= jobs.Keys
      ensures oldest in ready
      ensures forall q | q in ready :: jobs[oldest].runAt <= jobs[q].runAt
    {
      oldest :| oldest in ready;
      var rest := ready - {oldest};
      while rest != {}
        invariant oldest in ready && rest <= ready
        invariant forall q | q in ready - rest :: jobs[oldest].runAt <= jobs[q].runAt
      {
        var k :| k in rest;
        if jobs[k].runAt < jobs[oldest].runAt {
          oldest := k;
        }
        rest := rest - {k};
      }
    }

    /** The inner SELECT: up to `n` ready rows, oldest first. */
    method Select(n: nat, locked: set<string>) returns (picked: set<string>)
      ensures ClaimPicks(jobs, now, n, locked, picked)
    {
      var ready := Ready(jobs, now, locked);
      var left := ready;
      picked := {};
      while |picked| < n && left != {}
        invariant picked <= ready && left == ready - picked
        invariant |picked| <= n && |ready| == |picked| + |left|
        invariant forall p, q | p in picked && q in left :: jobs[p].runAt <= jobs[q].runAt
        decreases left
      {
        var k := Oldest(left);
        picked, left := picked + {k}, left - {k};
      }
    }

    /** Leases up to `n` runnable rows to `worker`, oldest first, and returns
        them as updated. */
    method Claim(worker: string, n: nat, locked: set<string>) returns (claimed: map<string, Job>)
      modifies this`jobs
      ensures ClaimPicks(old(jobs), now, n, locked, claimed.Keys)
      ensures jobs == ClaimedRows(old(jobs), worker, now + WholeSeconds(lease), claimed.Keys)
      ensures forall k | k in claimed :: k in jobs && claimed[k] == jobs[k]
      ensures jobs.Keys == old(jobs).Keys && forall k | k in jobs && k !in claimed :: jobs[k] == old(jobs)[k]
      ensures |claimed| <= n
      ensures forall k | k in old(jobs) && k !in claimed && k !in locked && Runnable(old(jobs)[k], now) ::
                |claimed| == n && forall p | p in claimed :: p in old(jobs) && old(jobs)[p].runAt <= old(jobs)[k].runAt
      ensures forall k | k in claimed ::
                && k in old(jobs) && Runnable(old(jobs)[k], now)
                && jobs[k] == old(jobs)[k].(status := Claimed, attempts := old(jobs)[k].attempts + 1,
                                            leasedUntil := jobs[k].leasedUntil, worker := Some(worker))
                && exists until :: jobs[k].leasedUntil == Some(until) && now + lease - 1000 < until <= now + lease
    {
      SecondsWithin(lease);
      var picked := Select(n, locked);
      PickedOrOlder(jobs, now, n, locked, picked);
      jobs := ClaimedRows(jobs, worker, now + WholeSeconds(lease), picked);
      claimed := map k | k in picked :: jobs[k];
      assert claimed.Keys == picked;
    }

    method Complete(k: string)
      modifies this`jobs
      ensures k in old(jobs) ==> jobs == old(jobs)[k := CompletedRow(old(jobs)[k])]
      ensures k !in old(jobs) ==> jobs == old(jobs)
    {
      if k in jobs {
        jobs := jobs[k := CompletedRow(jobs[k])];
      }
    }

    method Reschedule(k: string, delay: int)
      modifies this`jobs
      ensures k in old(jobs) ==> jobs == old(jobs)[k := RescheduledRow(old(jobs)[k], now, delay)]
      ensures k !in old(jobs) ==> jobs == old(jobs)
    {
      if k in jobs {
        jobs := jobs[k := RescheduledRow(jobs[k], now, delay)];
      }
    }

    method Fail(k: string, attempts: int, maxAttempts: int, draw: nat, cause: string)
      modifies this`jobs
      ensures var delay := Jittered(Envelope(baseBackoff, maxBackoff, attempts), draw);
              k in old(jobs) ==>
                jobs == old(jobs)[k := FailedRow(old(jobs)[k], now, attempts, maxAttempts, delay, cause)]
      ensures k !in old(jobs) ==> jobs == old(jobs)
    {
      if attempts >= maxAttempts {
        if k in jobs {
          jobs := jobs[k := DeadRow(jobs[k], cause)];
        }
        return;
      }
      var delay := Backoff(baseBackoff, maxBackoff, attempts, draw);
      if k in jobs {
        jobs := jobs[k := RetriedRow(jobs[k], now, delay, cause)];
      }
    }
  }
}
