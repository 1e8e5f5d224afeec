/** What every run of the worker pools keeps. */
module PoolSafety {
  import opened Queue
  import opened Pools

  /* ------------------------------------------------------------ invariants */

  /** The execution's row exists, its ticket is not ahead of the job's claims, and
      its pool knows it. */
  ghost predicate Known(s: State, e: Ticket)
    requires e in s.live
  {
    && e.0 in s.jobs
    && e.1 <= TallyOf(s, e.0).claims
    && s.live[e].maxAttempts == s.jobs[e.0].maxAttempts
    && s.live[e].pool in s.pools
  }

  ghost predicate Grounded(s: State) {
    && s.tallies.Keys <= s.jobs.Keys
    && (forall k | k in s.jobs :: s.jobs[k].maxAttempts >= 1)
    && (forall e | e in s.live :: Known(s, e))
  }

  ghost predicate Members(s: State, p: string, tickets: set<Ticket>) {
    forall e | e in tickets :: e in s.live && s.live[e].pool == p
  }

  ghost predicate Slots(c: Config, s: State, p: string)
    requires p in s.pools
  {
    var pool := s.pools[p];
    && pool.running !! pool.Batch()
    && Members(s, p, pool.running) && Members(s, p, pool.Batch())
    && pool.sem == |pool.running| + pool.ending
    && pool.sem + pool.Reserved() <= c.concurrency
    && (pool.loop.Starting? ==> pool.loop.batch != {})
  }

  ghost predicate Slotted(c: Config, s: State) {
    Grounded(s) && forall p | p in s.pools :: Slots(c, s, p)
  }

  /* ---------------------------------------------------------- one step each */

  lemma {:induction false} TicketsCount(s: State, picked: set<string>)
    ensures |Tickets(s, picked)| == |picked|
    decreases picked
  {
    if picked != {} {
      var k :| k in picked;
      var rest := picked - {k};
      TicketsCount(s, rest);
      assert Tickets(s, picked) == Tickets(s, rest) + {TicketOf(s, k)};
    } else {
      assert Tickets(s, picked) == {};
    }
  }

  /** A ticket issued now is ahead of every live one. */
  lemma NewTicket(s: State, k: string)
    requires Grounded(s)
    ensures TicketOf(s, k) !in s.live
  {
  }

  lemma LeasedTally(c: Config, s: State, p: string, picked: set<string>, k: string)
    requires picked <= s.jobs.Keys
    ensures TallyOf(Leased(c, s, p, picked), k).claims == TallyOf(s, k).claims + if k in picked then 1 else 0
  {
  }

  lemma ClaimDroppedGrounded(c: Config, s: State, p: string, picked: set<string>)
    requires Grounded(s) && p in s.pools && picked <= s.jobs.Keys
    ensures Grounded(ClaimDropped(c, s, p, picked))
  {
    var s' := ClaimDropped(c, s, p, picked);
    forall e | e in s'.live ensures Known(s', e) {
      assert Known(s, e);
      LeasedTally(c, s, p, picked, e.0);
    }
  }

  lemma ClaimTakenGrounded(c: Config, s: State, p: string, picked: set<string>)
    requires Grounded(s) && p in s.pools && picked <= s.jobs.Keys
    ensures Grounded(ClaimTaken(c, s, p, picked))
  {
    var s' := ClaimTaken(c, s, p, picked);
    var x := NewExecutions(c, s, p, picked);
    forall e | e in s'.live ensures Known(s', e) {
      LeasedTally(c, s, p, picked, e.0);
      if e !in x {
        assert Known(s, e);
      }
    }
  }

  lemma FinishGrounded(c: Config, s: State, e: Ticket, outcome: Outcome)
    requires Grounded(s) && e in s.live
    ensures Grounded(Finished(c, s, e, outcome))
  {
  }

  lemma ClaimKeepsLive(c: Config, s: State, p: string, picked: set<string>, e: Ticket)
    requires Grounded(s) && p in s.pools && e in s.live
    ensures e in ClaimTaken(c, s, p, picked).live && ClaimTaken(c, s, p, picked).live[e] == s.live[e]
  {
    if e in NewExecutions(c, s, p, picked) {
      NewTicket(s, e.0);
    }
  }

  lemma ClaimBatch(c: Config, s: State, p: string, picked: set<string>)
    requires Grounded(s) && p in s.pools && picked <= s.jobs.Keys
    ensures Members(ClaimTaken(c, s, p, picked), p, Tickets(s, picked))
    ensures Tickets(s, picked) !! s.live.Keys
  {
    var s' := ClaimTaken(c, s, p, picked);
    forall e | e in Tickets(s, picked) ensures e in s'.live && s'.live[e].pool == p && e !in s.live {
      assert e == TicketOf(s, e.0) && e in NewExecutions(c, s, p, picked);
      NewTicket(s, e.0);
    }
  }

  lemma ClaimKeepsMembers(c: Config, s: State, p: string, picked: set<string>, q: string, tickets: set<Ticket>)
    requires Grounded(s) && p in s.pools && Members(s, q, tickets)
    ensures Members(ClaimTaken(c, s, p, picked), q, tickets)
  {
    forall e | e in tickets
      ensures e in ClaimTaken(c, s, p, picked).live && ClaimTaken(c, s, p, picked).live[e].pool == q {
      ClaimKeepsLive(c, s, p, picked, e);
    }
  }

  lemma ClaimSlots(c: Config, s: State, p: string, picked: set<string>, q: string)
    requires Slotted(c, s) && p in s.pools && q in s.pools && picked <= s.jobs.Keys
    requires s.pools[p].loop.HasCapacity? && |picked| <= s.pools[p].loop.n
    ensures Slots(c, ClaimTaken(c, s, p, picked), q)
  {
    assert Slots(c, s, q);
    ClaimKeepsMembers(c, s, p, picked, q, s.pools[q].running);
    ClaimKeepsMembers(c, s, p, picked, q, s.pools[q].Batch());
    if p == q {
      TicketsCount(s, picked);
      ClaimBatch(c, s, p, picked);
      hide Members, Leased, NewExecutions, Tickets, Grounded;
      assert ClaimTaken(c, s, p, picked).pools[p].Batch() == Tickets(s, picked);
      ClaimBatchApart(c, s, p, picked);
    }
  }

  lemma ClaimBatchApart(c: Config, s: State, p: string, picked: set<string>)
    requires Slotted(c, s) && p in s.pools && Tickets(s, picked) !! s.live.Keys
    ensures s.pools[p].running !! Tickets(s, picked)
  {
    assert Slots(c, s, p);
  }

  lemma ClaimDroppedSlots(c: Config, s: State, p: string, picked: set<string>)
    requires Slotted(c, s) && p in s.pools
    requires s.pools[p].loop.HasCapacity?
    ensures forall q | q in s.pools :: Slots(c, ClaimDropped(c, s, p, picked), q)
  {
    forall q | q in s.pools ensures Slots(c, ClaimDropped(c, s, p, picked), q) {
      assert Slots(c, s, q);
    }
  }

  lemma CrashSlotted(c: Config, s: State, p: string)
    requires Slotted(c, s) && p in s.pools
    ensures Slotted(c, Crashed(s, p))
  {
    var s' := Crashed(s, p);
    forall e | e in s'.live ensures Known(s', e) {
      assert Known(s, e);
    }
    forall q | q in s'.pools ensures Slots(c, s', q) {
      assert Slots(c, s, q);
    }
  }

  lemma BeginSlots(c: Config, s: State, p: string, e: Ticket, q: string)
    requires Slotted(c, s) && p in s.pools && q in s.pools
    requires e in s.pools[p].Batch()
    ensures Slots(c, Begun(s, p, e), q)
  {
    assert Slots(c, s, q);
    var s' := Begun(s, p, e);
    if p == q {
      var pool, batch := s.pools[p], s.pools[p].Batch();
      assert s'.pools[p].Batch() == batch - {e};
      assert s'.pools[p].running == pool.running + {e};
      assert |pool.running + {e}| == |pool.running| + 1;
      assert |batch - {e}| == |batch| - 1;
    } else {
      assert s'.pools[q] == s.pools[q];
    }
  }

  lemma FinishLive(c: Config, s: State, e: Ticket, outcome: Outcome)
    requires e in s.live && e.0 in s.jobs && s.live[e].pool in s.pools
    ensures Finished(c, s, e, outcome).live == s.live - {e}
    ensures forall q | q in s.pools :: q in Finished(c, s, e, outcome).pools &&
              Finished(c, s, e, outcome).pools[q] ==
                if q == s.live[e].pool
                then s.pools[q].(running := s.pools[q].running - {e}, ending := s.pools[q].ending + 1) else s.pools[q]
  {
    hide Jittered, Envelope, WholeSeconds;
  }

  lemma FewerMembers(s: State, s': State, p: string, tickets: set<Ticket>, e: Ticket)
    requires Members(s, p, tickets) && s'.live == s.live - {e}
    ensures Members(s', p, tickets - {e})
    ensures e !in tickets ==> Members(s', p, tickets)
  {
  }

  lemma FinishSlots(c: Config, s: State, e: Ticket, outcome: Outcome, q: string)
    requires Slotted(c, s) && e in s.live && q in s.pools
    requires e in s.pools[s.live[e].pool].running
    ensures Slots(c, Finished(c, s, e, outcome), q)
  {
    hide Finished;
    assert Slots(c, s, q) && Known(s, e);
    var pool, s' := s.pools[q], Finished(c, s, e, outcome);
    assert s.live[e].pool != q ==> e !in pool.running && e !in pool.Batch();
    FinishLive(c, s, e, outcome);
    hide Grounded, Members;
    FewerMembers(s, s', q, pool.running, e);
    FewerMembers(s, s', q, pool.Batch(), e);
    if s.live[e].pool == q {
      assert |pool.running - {e}| == |pool.running| - 1;
    }
  }

  lemma BeginGrounded(s: State, p: string, e: Ticket)
    requires Grounded(s) && p in s.pools
    ensures Grounded(Begun(s, p, e))
  {
    forall x | x in s.live ensures Known(Begun(s, p, e), x) {
      assert Known(s, x);
    }
  }

  lemma QuietGrounded(c: Config, s: State, a: Step)
    requires Grounded(s) && Enabled(c, s, a)
    requires a.Tick? || a.Enqueue? || a.Boot? || a.Poll? || a.Release?
    ensures Grounded(Apply(c, s, a))
  {
    var s' := Apply(c, s, a);
    assert s'.live == s.live && s'.tallies == s.tallies;
    forall e | e in s'.live ensures Known(s', e) {
      assert Known(s, e);
    }
  }

  lemma SameMembers(s: State, s': State, p: string, tickets: set<Ticket>)
    requires s'.live == s.live
    ensures Members(s', p, tickets) == Members(s, p, tickets)
  {
  }

  lemma BootSlots(c: Config, s: State, p: string)
    ensures Slots(c, Booted(s, p), p)
  {
  }

  lemma QuietSlots(c: Config, s: State, a: Step, q: string)
    requires Slotted(c, s) && Enabled(c, s, a)
    requires a.Tick? || a.Enqueue? || a.Boot? || a.Poll? || a.Release?
    requires q in Apply(c, s, a).pools
    ensures Slots(c, Apply(c, s, a), q)
  {
    hide Grounded, NewRow, ClaimPicks, Leased, NewExecutions, Finalised, Members;
    if q in s.pools {
      assert Slots(c, s, q);
      var s' := Apply(c, s, a);
      assert s'.live == s.live && s'.pools[q].running == s.pools[q].running
          && s'.pools[q].Batch() == s.pools[q].Batch();
      SameMembers(s, s', q, s.pools[q].running);
      SameMembers(s, s', q, s.pools[q].Batch());
    } else {
      BootSlots(c, s, q);
    }
  }

  lemma QuietSlotted(c: Config, s: State, a: Step)
    requires Slotted(c, s) && Enabled(c, s, a)
    requires a.Tick? || a.Enqueue? || a.Boot? || a.Poll? || a.Release?
    ensures Slotted(c, Apply(c, s, a))
  {
    hide Grounded, Slots, Apply, Enabled;
    QuietGrounded(c, s, a);
    forall q | q in Apply(c, s, a).pools ensures Slots(c, Apply(c, s, a), q) {
      QuietSlots(c, s, a, q);
    }
  }

  lemma StepSlotted(c: Config, s: State, a: Step)
    requires Slotted(c, s) && Enabled(c, s, a)
    ensures Slotted(c, Apply(c, s, a))
  {
    match a
    case Claim(p, _, picked) =>
      ClaimTakenGrounded(c, s, p, picked);
      var s' := ClaimTaken(c, s, p, picked);
      forall q | q in s'.pools ensures Slots(c, s', q) { ClaimSlots(c, s, p, picked, q); }
    case ClaimLost(p, _, picked) =>
      ClaimDroppedGrounded(c, s, p, picked);
      ClaimDroppedSlots(c, s, p, picked);
    case Begin(p, e) =>
      BeginGrounded(s, p, e);
      var s' := Begun(s, p, e);
      forall q | q in s'.pools ensures Slots(c, s', q) { BeginSlots(c, s, p, e, q); }
    case Finish(e, outcome) =>
      FinishGrounded(c, s, e, outcome);
      var s' := Finished(c, s, e, outcome);
      forall q | q in s'.pools ensures Slots(c, s', q) { FinishSlots(c, s, e, outcome, q); }
    case Crash(p) => CrashSlotted(c, s, p);
    case _ => QuietSlotted(c, s, a);
  }

  /** No step removes a row or changes what the row is for. */
  lemma RowsKept(c: Config, s: State, a: Step)
    requires Enabled(c, s, a)
    ensures var s' := Apply(c, s, a);
            && s.jobs.Keys <= s'.jobs.Keys
            && (!a.Enqueue? ==> s'.jobs.Keys == s.jobs.Keys)
            && (forall k | k in s.jobs ::
               s'.jobs[k].kind == s.jobs[k].kind && s'.jobs[k].payload == s.jobs[k].payload)
  {
    hide Jittered, Envelope, WholeSeconds, NewRow, NewExecutions, ClaimPicks, TallyOf;
  }
}
