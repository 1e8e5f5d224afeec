/** Leases under the lease discipline: one live execution per job, absorbing end
    states, and an exact account of every job's attempts. */
module PoolLeases {
  import opened Domain
  import opened Queue
  import opened Pools
  import opened PoolSafety

  /** The execution holds the current lease of its row, and its copy is current. */
  ghost predicate Holds(s: State, e: Ticket)
    requires e in s.live && Known(s, e)
  {
    var j, x := s.jobs[e.0], s.live[e];
    && j.status == Claimed
    && j.leasedUntil == Some(x.leasedUntil)
    && j.attempts == x.attempts
    && e.1 == TallyOf(s, e.0).claims
    && s.now <= x.leasedUntil
  }

  /** Claims are accounted for one by one: by a failure, a lost lease, a reschedule,
      or the lease the row is (or, once done, was last) under. */
  ghost predicate Balanced(c: Config, j: Job, t: Tally) {
    && j.attempts == t.claims - t.reschedules
    && t.claims == t.failures + t.lost + t.reschedules + (if j.status in {Claimed, Done} then 1 else 0)
    && (j.kind in c.handled && j.status != Dead ==> t.failures < j.maxAttempts)
    && (j.kind in c.handled ==> t.failures <= j.maxAttempts)
  }

  ghost predicate Exclusive(c: Config, s: State) {
    && Slotted(c, s)
    && (forall e | e in s.live :: Holds(s, e))
    && (forall k | k in s.jobs :: Balanced(c, s.jobs[k], TallyOf(s, k)))
  }

  ghost predicate Timely(s: State, a: Step) {
    a.Tick? ==> OnTime(s, a.t)
  }

  /** No live execution's row can be picked by a claim. */
  lemma LeasedRowsAreNotReady(c: Config, s: State, locked: set<string>, e: Ticket)
    requires Exclusive(c, s) && e in s.live
    ensures e.0 !in Ready(s.jobs, s.now, locked)
  {
    assert Holds(s, e);
  }

  lemma SoleExecution(c: Config, s: State, e: Ticket, x: Ticket)
    requires Exclusive(c, s) && e in s.live && x in s.live && e.0 == x.0
    ensures e == x
  {
    assert Holds(s, e) && Holds(s, x);
  }

  lemma LeasedBalanced(c: Config, s: State, p: string, picked: set<string>, locked: set<string>)
    requires Exclusive(c, s) && p in s.pools && picked <= Ready(s.jobs, s.now, locked)
    ensures var s' := Leased(c, s, p, picked);
            forall k | k in s'.jobs :: Balanced(c, s'.jobs[k], TallyOf(s', k))
  {
    var s' := Leased(c, s, p, picked);
    forall k | k in s'.jobs ensures Balanced(c, s'.jobs[k], TallyOf(s', k)) {
      assert Balanced(c, s.jobs[k], TallyOf(s, k));
      if k in picked {
        assert Runnable(s.jobs[k], s.now);
      }
    }
  }

  lemma NewExecutionHolds(c: Config, s: State, p: string, picked: set<string>, e: Ticket)
    requires p in s.pools && e in NewExecutions(c, s, p, picked)
    requires var s' := ClaimTaken(c, s, p, picked); e in s'.live && Known(s', e)
    ensures Holds(ClaimTaken(c, s, p, picked), e)
  {
    assert e == TicketOf(s, e.0) && e.0 in picked && e.0 in s.jobs;
    assert WholeSeconds(c.lease) >= 0;
  }

  lemma ClaimTakenHolds(c: Config, s: State, p: string, picked: set<string>, locked: set<string>)
    requires Exclusive(c, s) && p in s.pools && picked <= Ready(s.jobs, s.now, locked)
    requires Slotted(c, ClaimTaken(c, s, p, picked))
    ensures var s' := ClaimTaken(c, s, p, picked); forall e | e in s'.live :: Known(s', e) && Holds(s', e)
  {
    var s' := ClaimTaken(c, s, p, picked);
    forall e | e in s'.live ensures Known(s', e) && Holds(s', e) {
      assert Known(s', e);
      if e in s.live {
        LeasedTally(c, s, p, picked, e.0);
        ClaimKeepsLive(c, s, p, picked, e);
        LeasedRowsAreNotReady(c, s, locked, e);
        assert Holds(s, e);
      } else {
        NewExecutionHolds(c, s, p, picked, e);
      }
    }
  }

  lemma ClaimDroppedHolds(c: Config, s: State, p: string, picked: set<string>, locked: set<string>)
    requires Exclusive(c, s) && p in s.pools && picked <= Ready(s.jobs, s.now, locked)
    requires Slotted(c, ClaimDropped(c, s, p, picked))
    ensures var s' := ClaimDropped(c, s, p, picked); forall e | e in s'.live :: Known(s', e) && Holds(s', e)
  {
    var s' := ClaimDropped(c, s, p, picked);
    forall e | e in s'.live ensures Known(s', e) && Holds(s', e) {
      assert Known(s', e);
      LeasedTally(c, s, p, picked, e.0);
      LeasedRowsAreNotReady(c, s, locked, e);
      assert Holds(s, e);
    }
  }

  lemma FinishHolds(c: Config, s: State, e: Ticket, outcome: Outcome, x: Ticket)
    requires Exclusive(c, s) && Enabled(c, s, Finish(e, outcome)) && x in s.live && x != e
    requires x in Finished(c, s, e, outcome).live && Known(Finished(c, s, e, outcome), x)
    ensures Holds(Finished(c, s, e, outcome), x)
  {
    hide Slotted, Balanced, Jittered, Envelope, FailedRow, RescheduledRow, CompletedRow;
    assert Holds(s, x);
    if x.0 == e.0 {
      SoleExecution(c, s, e, x);
    }
  }

  lemma FinishBalanced(c: Config, s: State, e: Ticket, outcome: Outcome, k: string)
    requires Exclusive(c, s) && Enabled(c, s, Finish(e, outcome)) && k in s.jobs
    ensures var s' := Finished(c, s, e, outcome); k in s'.jobs && Balanced(c, s'.jobs[k], TallyOf(s', k))
  {
    hide Slots, Jittered, Envelope, WholeSeconds;
    assert Known(s, e) && Holds(s, e) && Balanced(c, s.jobs[k], TallyOf(s, k));
  }

  lemma FinishExclusive(c: Config, s: State, e: Ticket, outcome: Outcome)
    requires Exclusive(c, s) && Enabled(c, s, Finish(e, outcome))
    requires Slotted(c, Finished(c, s, e, outcome))
    ensures Exclusive(c, Finished(c, s, e, outcome))
  {
    hide Balanced, Holds, Finalised, Slots;
    var s' := Finished(c, s, e, outcome);
    forall x | x in s'.live ensures Known(s', x) && Holds(s', x) {
      FinishHolds(c, s, e, outcome, x);
    }
    FinishKeys(c, s, e, outcome);
    forall k | k in s'.jobs ensures Balanced(c, s'.jobs[k], TallyOf(s', k)) {
      FinishBalanced(c, s, e, outcome, k);
    }
  }

  lemma FinishKeys(c: Config, s: State, e: Ticket, outcome: Outcome)
    requires Enabled(c, s, Finish(e, outcome))
    ensures Finished(c, s, e, outcome).jobs.Keys == s.jobs.Keys
  {
    hide FailedRow, RescheduledRow, CompletedRow, Jittered, Envelope;
  }

  /** Steps that neither lease nor finalise change no row but a new one, no tally and
      no live execution but those that crash. */
  lemma QuietFrame(c: Config, s: State, a: Step)
    requires Enabled(c, s, a) && !a.Claim? && !a.ClaimLost? && !a.Finish?
    ensures var t := Apply(c, s, a);
            && t.tallies == s.tallies && t.now == (if a.Tick? then a.t else s.now)
            && (forall x | x in t.live :: x in s.live && t.live[x] == s.live[x])
            && t.jobs == if a.Enqueue? then s.jobs[a.p.key := NewRow(s.now, a.p)] else s.jobs
  {
    hide NewRow;
  }

  lemma QuietHolds(c: Config, s: State, a: Step, x: Ticket)
    requires Exclusive(c, s) && Enabled(c, s, a) && Timely(s, a)
    requires !a.Claim? && !a.ClaimLost? && !a.Finish?
    requires x in Apply(c, s, a).live && Known(Apply(c, s, a), x)
    ensures Holds(Apply(c, s, a), x)
  {
    QuietFrame(c, s, a);
    assert Known(s, x) && Holds(s, x);
    EnqueuesNew(c, s, a, x.0);
    hide Enabled, Apply, Exclusive, Slotted, NewRow;
  }

  lemma EnqueuesNew(c: Config, s: State, a: Step, k: string)
    requires Enabled(c, s, a) && k in s.jobs
    ensures a.Enqueue? ==> a.p.key != k && a.p.maxAttempts >= 0
  {
  }

  lemma QuietBalanced(c: Config, s: State, a: Step, k: string)
    requires Exclusive(c, s) && Enabled(c, s, a) && k in Apply(c, s, a).jobs
    requires !a.Claim? && !a.ClaimLost? && !a.Finish?
    ensures Balanced(c, Apply(c, s, a).jobs[k], TallyOf(Apply(c, s, a), k))
  {
    QuietFrame(c, s, a);
    if k in s.jobs {
      EnqueuesNew(c, s, a, k);
      assert Balanced(c, s.jobs[k], TallyOf(s, k));
    } else {
      NewRowBalanced(c, s, a.p);
    }
  }

  lemma NewRowBalanced(c: Config, s: State, p: EnqueueParams)
    requires Grounded(s) && p.key !in s.jobs && p.maxAttempts >= 0
    ensures Balanced(c, NewRow(s.now, p), TallyOf(s, p.key))
  {
  }

  lemma QuietExclusive(c: Config, s: State, a: Step)
    requires Exclusive(c, s) && Enabled(c, s, a) && Timely(s, a)
    requires !a.Claim? && !a.ClaimLost? && !a.Finish?
    requires Slotted(c, Apply(c, s, a))
    ensures Exclusive(c, Apply(c, s, a))
  {
    hide Slots, Enabled, Apply, Holds, Balanced, TallyOf;
    var s' := Apply(c, s, a);
    forall x | x in s'.live ensures Known(s', x) && Holds(s', x) {
      assert Known(s', x);
      QuietHolds(c, s, a, x);
    }
    forall k | k in s'.jobs ensures Balanced(c, s'.jobs[k], TallyOf(s', k)) {
      QuietBalanced(c, s, a, k);
    }
  }

  lemma ClaimTakenExclusive(c: Config, s: State, p: string, picked: set<string>, locked: set<string>)
    requires Exclusive(c, s) && p in s.pools && picked <= Ready(s.jobs, s.now, locked)
    requires Slotted(c, ClaimTaken(c, s, p, picked))
    ensures Exclusive(c, ClaimTaken(c, s, p, picked))
  {
    hide Slots, Balanced, Holds, ClaimedRows, NewExecutions, Ready;
    LeasedBalanced(c, s, p, picked, locked);
    ClaimTakenHolds(c, s, p, picked, locked);
    var s' := ClaimTaken(c, s, p, picked);
    assert forall k :: TallyOf(s', k) == TallyOf(Leased(c, s, p, picked), k);
  }

  lemma ClaimDroppedExclusive(c: Config, s: State, p: string, picked: set<string>, locked: set<string>)
    requires Exclusive(c, s) && p in s.pools && picked <= Ready(s.jobs, s.now, locked)
    requires Slotted(c, ClaimDropped(c, s, p, picked))
    ensures Exclusive(c, ClaimDropped(c, s, p, picked))
  {
    hide Slots, Balanced, Holds, ClaimedRows, Ready;
    LeasedBalanced(c, s, p, picked, locked);
    ClaimDroppedHolds(c, s, p, picked, locked);
    var s' := ClaimDropped(c, s, p, picked);
    assert forall k :: TallyOf(s', k) == TallyOf(Leased(c, s, p, picked), k);
  }

  lemma StepExclusive(c: Config, s: State, a: Step)
    requires Exclusive(c, s) && Enabled(c, s, a) && Timely(s, a)
    ensures Exclusive(c, Apply(c, s, a))
  {
    hide Exclusive, Slotted, Leased, Finished, ClaimTaken, ClaimDropped;
    SlottedToo(c, s, a);
    match a
    case Claim(p, locked, picked) => ClaimTakenExclusive(c, s, p, picked, locked);
    case ClaimLost(p, locked, picked) => ClaimDroppedExclusive(c, s, p, picked, locked);
    case Finish(e, outcome) => FinishExclusive(c, s, e, outcome);
    case _ => QuietExclusive(c, s, a);
  }

  lemma SlottedToo(c: Config, s: State, a: Step)
    requires Exclusive(c, s) && Enabled(c, s, a)
    ensures Slotted(c, Apply(c, s, a))
  {
    hide Slotted, Enabled;
    StepSlotted(c, s, a);
  }

  /** Only a claim that picks a row, an execution of it that finishes, or the
      enqueuing of its key can change it. */
  ghost predicate Touches(a: Step, k: string) {
    match a
    case Claim(_, _, picked) => k in picked
    case ClaimLost(_, _, picked) => k in picked
    case Finish(e, _) => e.0 == k
    case Enqueue(p) => p.key == k
    case _ => false
  }

  lemma StepElsewhere(c: Config, s: State, a: Step, k: string)
    requires Enabled(c, s, a) && !Touches(a, k) && k in s.jobs
    ensures var s' := Apply(c, s, a); k in s'.jobs && s'.jobs[k] == s.jobs[k]
  {
  }

  lemma FinishTouches(c: Config, s: State, e: Ticket, outcome: Outcome)
    requires Exclusive(c, s) && Enabled(c, s, Finish(e, outcome))
    ensures e.0 in s.jobs && s.jobs[e.0].status == Claimed
  {
    assert Holds(s, e);
  }

  /** A finished job's row is final. */
  lemma StepKeepsFinished(c: Config, s: State, a: Step, k: string)
    requires Exclusive(c, s) && Enabled(c, s, a)
    requires k in s.jobs && s.jobs[k].status in {Done, Dead}
    ensures k in Apply(c, s, a).jobs && Apply(c, s, a).jobs[k] == s.jobs[k]
  {
    if a.Finish? {
      FinishTouches(c, s, a.e, a.outcome);
    }
    if a.Claim? || a.ClaimLost? {
      assert k !in Ready(s.jobs, s.now, a.locked);
    }
    StepElsewhere(c, s, a, k);
  }

  /** A claim leases a row; it never kills it. */
  lemma ClaimSpares(c: Config, s: State, a: Step, k: string)
    requires Enabled(c, s, a) && (a.Claim? || a.ClaimLost?) && k in s.jobs && s.jobs[k].status != Dead
    ensures k in Apply(c, s, a).jobs && Apply(c, s, a).jobs[k].status != Dead
  {
  }

  lemma FinishVerdict(c: Config, s: State, e: Ticket, outcome: Outcome)
    requires Exclusive(c, s) && Enabled(c, s, Finish(e, outcome)) && s.jobs[e.0].kind in c.handled
    ensures var s', k := Finished(c, s, e, outcome), e.0;
            && k in s'.jobs
            && (s'.jobs[k].status == Dead <==>
                outcome.Errored? && TallyOf(s', k).failures + TallyOf(s', k).lost >= s'.jobs[k].maxAttempts)
  {
    assert Holds(s, e);
    assert Balanced(c, s.jobs[e.0], TallyOf(s, e.0));
  }

  /* ---------------------------------------------------------- over whole runs */

  lemma {:induction false} RunSlotted(c: Config, r: Run)
    requires Legal(c, r)
    ensures Slotted(c, After(c, r))
  {
    if r.Then? {
      RunSlotted(c, r.prior);
      StepSlotted(c, After(c, r.prior), r.step);
    }
  }

  lemma {:induction false} RunExclusive(c: Config, r: Run)
    requires Legal(c, r) && Disciplined(c, r)
    ensures Exclusive(c, After(c, r))
  {
    if r.Then? {
      RunExclusive(c, r.prior);
      StepExclusive(c, After(c, r.prior), r.step);
    }
  }

  /** Whatever crashes and however many pools there are: no pool runs more than
      `concurrency` jobs, and a pool about to start a claimed job always finds a
      free slot in its semaphore. */
  lemma PoolsStayBounded(c: Config, r: Run, p: string)
    requires Legal(c, r) && p in After(c, r).pools
    ensures var pool := After(c, r).pools[p];
            && |pool.running| <= c.concurrency
            && (pool.loop.Starting? ==> pool.loop.batch != {} && pool.sem < c.concurrency)
  {
    RunSlotted(c, r);
    var pool := After(c, r).pools[p];
    assert Slots(c, After(c, r), p);
    if pool.loop.Starting? {
      assert |pool.loop.batch| > 0;
    }
  }

  /** A job never has two live executions. */
  lemma OneExecutionPerJob(c: Config, r: Run, e: Ticket, x: Ticket)
    requires Legal(c, r) && Disciplined(c, r)
    requires e in After(c, r).live && x in After(c, r).live && e.0 == x.0
    ensures e == x
    ensures e.0 in After(c, r).jobs && After(c, r).jobs[e.0].status == Claimed
  {
    RunExclusive(c, r);
    SoleExecution(c, After(c, r), e, x);
    assert Holds(After(c, r), e);
  }

  /** Done and dead are absorbing: the row never changes again. */
  lemma {:induction false} FinishedJobsStay(c: Config, q: Run, r: Run, k: string)
    requires Legal(c, r) && Disciplined(c, r) && Within(q, r) && Legal(c, q)
    requires k in After(c, q).jobs && After(c, q).jobs[k].status in {Done, Dead}
    ensures k in After(c, r).jobs && After(c, r).jobs[k] == After(c, q).jobs[k]
  {
    if q != r {
      FinishedJobsStay(c, q, r.prior, k);
      RunExclusive(c, r.prior);
      StepKeepsFinished(c, After(c, r.prior), r.step, k);
    }
  }

  /** Attempts are claims minus reschedules; an execution's attempt number counts
      only earlier failures and lost leases, however often the job was
      rescheduled; and a handled job never records more failures than its limit. */
  lemma AttemptsAccounted(c: Config, r: Run, k: string)
    requires Legal(c, r) && Disciplined(c, r) && k in After(c, r).jobs
    ensures var s := After(c, r); var j, t := s.jobs[k], TallyOf(s, k);
            && j.attempts == t.claims - t.reschedules
            && (j.kind in c.handled ==> t.failures <= j.maxAttempts)
            && (forall e | e in s.live && e.0 == k :: s.live[e].attempts == t.failures + t.lost + 1)
            && (j.status == Pending ==> j.attempts == t.failures + t.lost)
  {
    RunExclusive(c, r);
    var s := After(c, r);
    assert Balanced(c, s.jobs[k], TallyOf(s, k));
    forall e | e in s.live && e.0 == k ensures s.live[e].attempts == TallyOf(s, k).failures + TallyOf(s, k).lost + 1 {
      assert Holds(s, e);
    }
  }

  /** A handled job goes dead exactly on a failure that brings its failures and
      lost leases to the limit; nothing else kills it. */
  lemma DeadOnlyWhenExhausted(c: Config, r: Run, k: string)
    requires Legal(c, r) && r.Then? && Disciplined(c, r)
    requires k in After(c, r.prior).jobs && After(c, r.prior).jobs[k].kind in c.handled
    requires After(c, r.prior).jobs[k].status != Dead
    ensures k in After(c, r).jobs
    ensures var t, max := TallyOf(After(c, r), k), After(c, r).jobs[k].maxAttempts;
            After(c, r).jobs[k].status == Dead <==>
            r.step.Finish? && r.step.e.0 == k && r.step.outcome.Errored? && t.failures + t.lost >= max
  {
    RunExclusive(c, r.prior);
    var s := After(c, r.prior);
    if !Touches(r.step, k) {
      StepElsewhere(c, s, r.step, k);
    } else if r.step.Finish? {
      FinishVerdict(c, s, r.step.e, r.step.outcome);
    } else {
      ClaimSpares(c, s, r.step, k);
    }
  }
}
