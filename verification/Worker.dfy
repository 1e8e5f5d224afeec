/** One worker process: the polling loop's tick and a goroutine's end. */
module Worker {
  import opened Domain
  import opened Queue
  import Pools

  /** What became of a claim: its transaction failed, committed unheard, or answered. */
  datatype ClaimReply = Failed | Unheard | Answered

  datatype HandlerResult = Returned | AskedLater(delay: int) | Erred(cause: string) | Panicked(cause: string)

  /** The ending the handler's result asks for. `written` says whether the finalising
      statement reached the database; a failure of it is only logged. */
  function Ending(registered: bool, result: HandlerResult, draw: nat, written: bool): Pools.Outcome {
    if !written then Pools.WriteLost
    else if !registered then Pools.NoHandler
    else
      match result
      case Returned => Pools.Succeeded
      case AskedLater(delay) => Pools.RetryLater(delay)
      case Erred(cause) => Pools.Errored(draw, cause)
      case Panicked(cause) => Pools.Errored(draw, "panic: " + cause)
  }

  /** A handler that came back with an error or panicked. */
  predicate Failing(result: HandlerResult) {
    result.Erred? || result.Panicked?
  }

  /** What the row records of an ending; an error recorded earlier stays. */
  function Cause(kind: string, registered: bool, result: HandlerResult, before: Option<string>): Option<string> {
    if !registered then Some("no handler for kind \"" + kind + "\"")
    else
      match result
      case Erred(cause) => Some(cause)
      case Panicked(cause) => Some("panic: " + cause)
      case _ => before
  }

  /** What an ending leaves of a row, given the worker's own copy `j` of it: done
      exactly when a registered handler returned; dead exactly when there is no handler
      or a failure has used up the worker's attempts; otherwise pending, after a failure
      due between a quarter and all of the doubled and capped backoff, after an asked
      delay due in that many whole seconds with one attempt given back. */
  ghost predicate Concludes(was: Job, row: Job, j: Job, registered: bool, result: HandlerResult,
                            now: int, base: int, cap: int) {
    && row.kind == was.kind && row.payload == was.payload && row.maxAttempts == was.maxAttempts
    && row.leasedUntil == None && row.worker == None
    && row.lastError == Cause(j.kind, registered, result, was.lastError)
    && (row.status == Done <==> registered && result.Returned?)
    && (row.status == Dead <==> !registered || (Failing(result) && j.attempts >= j.maxAttempts))
    && (row.status == Pending <==>
          registered && (result.AskedLater? || (Failing(result) && j.attempts < j.maxAttempts)))
    && (if registered && result.AskedLater? then
          && row.attempts == (if was.attempts >= 1 then was.attempts - 1 else 0)
          && (result.delay >= 0 ==> now + result.delay - 1000 < row.runAt <= now + result.delay)
          && (result.delay <= 0 ==> now + result.delay <= row.runAt < now + result.delay + 1000)
          && (row.runAt - now) % 1000 == 0
        else row.attempts == was.attempts)
    && (if registered && Failing(result) && j.attempts < j.maxAttempts then
          base > 0 && cap > 0 ==>
            var envelope := Min(base * Pow2(if j.attempts <= 1 then 0 else j.attempts - 1), cap);
            now + envelope / 4 <= row.runAt <= now + envelope
        else !(registered && result.AskedLater?) ==> row.runAt == was.runAt)
  }

  /** What is running that was not running before. */
  ghost function Started(before: map<nat, (string, Job)>, after: map<nat, (string, Job)>): set<(string, Job)> {
    set g | g in after && g !in before :: after[g]
  }

  lemma StartedOne(before: map<nat, (string, Job)>, after: map<nat, (string, Job)>, g: nat, x: (string, Job))
    requires before.Keys <= after.Keys && g !in after
    ensures Started(before, after[g := x]) == Started(before, after) + {x}
  {
    assert after[g := x][g] == x;
  }

  lemma StartedNone(m: map<nat, (string, Job)>)
    ensures Started(m, m) == {}
  {
  }

  class WorkerPool {
    const q: JobTable
    const id: string
    const concurrency: nat
    const handled: set<string>
    /** The semaphore's length, the goroutines holding its slots with their copy of
        the job, and how many were ever started. */
    var sem: nat
    var running: map<nat, (string, Job)>
    var spawned: nat

    ghost predicate Valid()
      reads this`sem, this`running, this`spawned
    {
      sem == |running| <= concurrency && forall g | g in running :: g < spawned
    }

    constructor (q: JobTable, id: string, concurrency: nat, handled: set<string>)
      ensures Valid() && running == map[]
      ensures this.q == q && this.id == id && this.concurrency == concurrency && this.handled == handled
    {
      this.q, this.id, this.concurrency, this.handled := q, id, concurrency, handled;
      sem, running, spawned := 0, map[], 0;
    }

    /** Never claims more than there is capacity to run: every claimed job gets a
        goroutine at once, and no send on the semaphore can block. */
    method Tick(locked: set<string>, reply: ClaimReply) returns (claimed: map<string, Job>)
      requires Valid()
      modifies this`sem, this`running, this`spawned, q`jobs
      ensures Valid()
      ensures q.jobs == ClaimedRows(old(q.jobs), id, q.now + WholeSeconds(q.lease), claimed.Keys)
      ensures if reply.Failed? || old(sem) == concurrency then claimed == map[]
              else ClaimPicks(old(q.jobs), q.now, concurrency - old(sem), locked, claimed.Keys)
      ensures forall k | k in claimed :: k in q.jobs && claimed[k] == q.jobs[k]
      ensures old(running).Keys <= running.Keys && forall g | g in old(running) :: running[g] == old(running)[g]
      ensures Started(old(running), running) == if reply.Answered? then claimed.Items else {}
      ensures |running| == |old(running)| + if reply.Answered? then |claimed| else 0
    {
      claimed := map[];
      Untouched(q.jobs, id, q.now + WholeSeconds(q.lease));
      var capacity := concurrency - sem;
      StartedNone(running);
      if capacity <= 0 || reply.Failed? {
        return;
      }
      claimed := q.Claim(id, capacity, locked);
      CapacityBounds(old(q.jobs), q.now, capacity, locked, claimed.Keys);
      if reply.Unheard? {
        return;
      }
      Start(claimed);
    }

    /** One goroutine for each claimed job. */
    method Start(claimed: map<string, Job>)
      requires Valid() && sem + |claimed| <= concurrency
      modifies this`sem, this`running, this`spawned
      ensures Valid()
      ensures old(running).Keys <= running.Keys && forall g | g in old(running) :: running[g] == old(running)[g]
      ensures Started(old(running), running) == claimed.Items
      ensures |running| == |old(running)| + |claimed|
    {
      hide Started;
      var rest := claimed.Keys;
      StartedNone(running);
      while rest != {}
        invariant rest <= claimed.Keys
        invariant Valid() && sem + |rest| <= concurrency
        invariant |running| + |rest| == |old(running)| + |claimed|
        invariant old(running).Keys <= running.Keys && forall g | g in old(running) :: running[g] == old(running)[g]
        invariant Started(old(running), running) == set k | k in claimed && k !in rest :: (k, claimed[k])
      {
        var k :| k in rest;
        StartedOne(old(running), running, spawned, (k, claimed[k]));
        sem := sem + 1;
        running := running[spawned := (k, claimed[k])];
        rest := rest - {k};
        spawned := spawned + 1;
      }
      Pairs(claimed);
    }

    /** Finalises the job by what its handler came back with. */
    method Finalise(k: string, j: Job, result: HandlerResult, draw: nat)
      modifies q`jobs
      ensures k !in old(q.jobs) ==> q.jobs == old(q.jobs)
      ensures k in old(q.jobs) && old(q.jobs)[k].kind == j.kind ==>
                q.jobs == old(q.jobs)[k := Pools.FinalRow(old(q.jobs)[k], q.now, q.baseBackoff, q.maxBackoff,
                                                          j.attempts, j.maxAttempts,
                                                          Ending(j.kind in handled, result, draw, true))]
      ensures k in old(q.jobs) ==>
                && k in q.jobs && q.jobs == old(q.jobs)[k := q.jobs[k]]
                && Concludes(old(q.jobs)[k], q.jobs[k], j, j.kind in handled, result, q.now, q.baseBackoff,
                             q.maxBackoff)
    {
      BackoffWithin(q.baseBackoff, q.maxBackoff, j.attempts, draw);
      if result.AskedLater? {
        SecondsWithin(result.delay);
      }
      hide Jittered, Envelope, WholeSeconds, Pow2;
      if j.kind !in handled {
        q.Fail(k, j.maxAttempts, j.maxAttempts, draw, Pools.UnknownKind(j.kind));
        return;
      }
      match result {
        case Returned => q.Complete(k);
        case AskedLater(delay) => q.Reschedule(k, delay);
        case Erred(cause) => q.Fail(k, j.attempts, j.maxAttempts, draw, cause);
        case Panicked(cause) => q.Fail(k, j.attempts, j.maxAttempts, draw, "panic: " + cause);
      }
    }

    /** A goroutine's end: the job finalised, where the statement reaches the
        database, and then the slot given back. The row becomes what the pools
        machine makes of it for that ending. */
    method Finish(g: nat, result: HandlerResult, draw: nat, written: bool)
      requires Valid() && g in running
      modifies this`sem, this`running, q`jobs
      ensures Valid()
      ensures running == old(running) - {g}
      ensures var (k, j) := old(running)[g]; var ending := Ending(j.kind in handled, result, draw, written);
              && (k !in old(q.jobs) ==> q.jobs == old(q.jobs))
              && forall c, s, e | Mirrors(c, s, e, k, j, q.now, q.baseBackoff, q.maxBackoff)
                 && s.jobs == old(q.jobs) ::
                   q.jobs == Pools.Finalised(c, s, e, ending).jobs
      ensures var (k, j) := old(running)[g];
              k in old(q.jobs) ==>
                && k in q.jobs && q.jobs == old(q.jobs)[k := q.jobs[k]]
                && if written then Concludes(old(q.jobs)[k], q.jobs[k], j, j.kind in handled, result, q.now,
                                             q.baseBackoff, q.maxBackoff)
                   else q.jobs[k] == old(q.jobs)[k]
    {
      hide Pools.FinalRow, Concludes;
      var (k, j) := running[g];
      if written {
        Finalise(k, j, result, draw);
      }
      running := running - {g};
      sem := sem - 1;
      if !written && k in old(q.jobs) {
        LostChangesNothing(old(q.jobs)[k], q.now, q.baseBackoff, q.maxBackoff, j);
        assert old(q.jobs)[k := old(q.jobs)[k]] == old(q.jobs);
      }
    }
  }

  lemma BackoffWithin(base: int, cap: int, attempt: int, draw: nat)
    ensures base > 0 && cap > 0 ==>
              var envelope := Min(base * Pow2(if attempt <= 1 then 0 else attempt - 1), cap);
              envelope / 4 <= Jittered(Envelope(base, cap, attempt), draw) <= envelope
  {
    if base > 0 && cap > 0 {
      EnvelopeGrows(base, cap, attempt, attempt);
      Pow2Grows(base, 0, if attempt <= 1 then 0 else attempt - 1);
      hide Pow2;
    }
  }

  lemma LostChangesNothing(row: Job, now: int, base: int, cap: int, j: Job)
    ensures Pools.FinalRow(row, now, base, cap, j.attempts, j.maxAttempts, Pools.WriteLost) == row
  {
  }

  /** `s` is a state of the pools machine in which `e` executes the same copy of the
      same job. */
  ghost predicate Mirrors(c: Pools.Config, s: Pools.State, e: Pools.Ticket, k: string, j: Job,
                          now: int, baseBackoff: int, maxBackoff: int) {
    && e.0 == k && e in s.live && k in s.jobs
    && s.now == now && c.baseBackoff == baseBackoff && c.maxBackoff == maxBackoff
    && s.jobs[k].kind == j.kind
    && s.live[e].attempts == j.attempts && s.live[e].maxAttempts == j.maxAttempts
  }

  lemma Untouched(t: Table, worker: string, until: int)
    ensures ClaimedRows(t, worker, until, {}) == t
  {
  }

  lemma CapacityBounds(t: Table, now: int, n: nat, locked: set<string>, picked: set<string>)
    requires ClaimPicks(t, now, n, locked, picked)
    ensures |picked| <= n
  {
  }

  lemma Pairs(m: map<string, Job>)
    ensures (set k | k in m :: (k, m[k])) == m.Items
  {
    forall x ensures x in m.Items <==> x in set k | k in m :: (k, m[k]) {
      if x in m.Items {
        assert x.0 in m && m[x.0] == x.1;
      }
    }
  }
}
