/** When an approved invoice can still be paid: as long as its payout job is open,
    whatever crashed, is leased to a dead worker or waits out a backoff, some
    continuation picks it up, pays and marks the invoice; and once the job is done or
    dead with the invoice unpaid, none ever does. */
module Delivery {
  import opened Domain
  import opened Approvals
  import opened Payout
  import opened Protocol
  import opened Payments
  import Q = Queue
  import Pools
  import PoolSafety
  import PoolLeases

  /* ------------------------------------------------------------ fresh tickets */

  /** A handler's ticket was issued by a claim of its job. */
  ghost predicate Issued(s: State) {
    forall e | e in s.handling :: e.1 <= Pools.TallyOf(s.queue, e.0).claims
  }

  lemma ClaimsGrow(c: Pools.Config, s: Pools.State, a: Pools.Step, k: string)
    requires Pools.Enabled(c, s, a)
    ensures Pools.TallyOf(s, k).claims <= Pools.TallyOf(Pools.Apply(c, s, a), k).claims
  {
    hide Q.Jittered, Q.Envelope, Q.ClaimPicks, Q.ClaimedRows, Q.FailedRow, Q.RescheduledRow, Q.NewRow;
  }

  lemma QueueAlone(c: Config, s: State, a: Step)
    requires Enabled(c, s, a) && !a.Queue?
    ensures Apply(c, s, a).queue.tallies == s.queue.tallies
    ensures !a.InHandler? ==> Apply(c, s, a).handling == s.handling
  {
    hide Committed, HandlerAfter, DeskAfter;
    match a
    case InHandler(e, h) => HandlerFrame(c, s, e, h);
    case CommitDecision(call) => CommittedFrame(c, s, s.deciding[call]);
    case DecideAtOnce(snap) => CommittedFrame(c, s, snap);
    case _ =>
  }

  lemma StepIssued(c: Config, s: State, a: Step)
    requires PoolSafety.Grounded(s.queue) && Issued(s) && Enabled(c, s, a)
    ensures Issued(Apply(c, s, a))
  {
    hide Apply, Pools.Apply, Pools.Enabled, HandlerAfter;
    if a.Queue? {
      QueueOnly(c, s, a);
      forall k { ClaimsGrow(c.pools, s.queue, a.a, k); }
    } else {
      QueueAlone(c, s, a);
      if a.InHandler? {
        HandlerOnly(c, s, a);
        HandlerFrame(c, s, a.e, a.h);
        assert PoolSafety.Known(s.queue, a.e);
      }
    }
  }

  lemma {:induction false} RunIssued(c: Config, r: Run)
    requires Legal(c, r)
    ensures Issued(After(c, r))
  {
    hide Apply, Enabled;
    if r.Then? {
      RunIssued(c, r.prior);
      QueueRunsAreRuns(c, r.prior);
      PoolLeases.RunSlotted(c.pools, QueueRun(c, r.prior));
      StepIssued(c, After(c, r.prior), r.step);
    }
  }

  /* ------------------------------------------------------------ continuations */

  /** The run keeps to the lease discipline. */
  ghost predicate OnLease(c: Config, r: Run)
    requires Legal(c, r)
  {
    Pools.Legal(c.pools, QueueRun(c, r)) && Pools.Disciplined(c.pools, QueueRun(c, r))
  }

  /** `next` continues `r`, within the lease discipline if `r` was. */
  ghost predicate Continues(c: Config, r: Run, next: Run) {
    Legal(c, r) && Legal(c, next) && Within(r, next) && (OnLease(c, r) ==> OnLease(c, next))
  }

  /** Only workers and their handlers move. */
  ghost predicate OnlyWork(q: Run, r: Run) {
    q == r || (r.Then? && (r.step.Queue? || r.step.InHandler?) && OnlyWork(q, r.prior))
  }

  ghost predicate Works(c: Config, r: Run, next: Run) {
    Continues(c, r, next) && OnlyWork(r, next)
  }

  /** One more step; a tick must leave every live execution within its lease. */
  lemma Extended(c: Config, r: Run, a: Step) returns (next: Run)
    requires Legal(c, r) && Enabled(c, After(c, r), a) && (a.Queue? || a.InHandler?)
    requires a.Queue? && a.a.Tick? ==> Pools.OnTime(After(c, r).queue, a.a.t)
    ensures Works(c, r, next) && next == Then(r, a) && After(c, next) == Apply(c, After(c, r), a)
  {
    hide Enabled, Apply, Pools.OnTime;
    next := Then(r, a);
    assert Within(r, r) && OnlyWork(r, r);
    QueueRunsAreRuns(c, r);
    QueueRunsAreRuns(c, next);
    TicksAreQueueSteps(c, After(c, r), a);
  }

  lemma TicksAreQueueSteps(c: Config, s: State, a: Step)
    requires Enabled(c, s, a)
    ensures QueueStep(c, s, a).Some? && QueueStep(c, s, a).value.Tick? ==> a == Queue(QueueStep(c, s, a).value)
  {
    hide Committed, Pools.Enabled;
  }

  lemma Stays(c: Config, r: Run)
    requires Legal(c, r)
    ensures Works(c, r, r)
  {
  }

  lemma Through(c: Config, q: Run, r: Run, t: Run)
    requires Works(c, q, r) && Works(c, r, t)
    ensures Works(c, q, t)
  {
    hide OnLease, Legal;
    WithinThrough(q, r, t);
    WorkThrough(q, r, t);
  }

  lemma {:induction false} WorkThrough(q: Run, r: Run, t: Run)
    requires OnlyWork(q, r) && OnlyWork(r, t)
    ensures OnlyWork(q, t)
  {
    if r != t {
      WorkThrough(q, r, t.prior);
    }
  }

  lemma {:induction false} WithinThrough(q: Run, r: Run, t: Run)
    requires Within(q, r) && Within(r, t)
    ensures Within(q, t)
  {
    if r != t {
      WithinThrough(q, r, t.prior);
    }
  }

  /* --------------------------------------------------------------- ripening a job */

  ghost predicate Open(s: Pools.State, k: string) {
    k in s.jobs && s.jobs[k].status in {Q.Pending, Q.Claimed}
  }

  ghost predicate Due(s: Pools.State, k: string) {
    k in s.jobs && Q.Runnable(s.jobs[k], s.now)
  }

  /** A claimed row says until when. */
  ghost predicate LeasesSet(s: Pools.State) {
    forall k | k in s.jobs && s.jobs[k].status == Q.Claimed :: s.jobs[k].leasedUntil.Some?
  }

  lemma {:induction false} RunLeasesSet(c: Pools.Config, r: Pools.Run)
    requires Pools.Legal(c, r)
    ensures LeasesSet(Pools.After(c, r))
  {
    if r.Then? {
      RunLeasesSet(c, r.prior);
      StepLeasesSet(c, Pools.After(c, r.prior), r.step);
    }
  }

  lemma StepLeasesSet(c: Pools.Config, s: Pools.State, a: Pools.Step)
    requires LeasesSet(s) && Pools.Enabled(c, s, a)
    ensures LeasesSet(Pools.Apply(c, s, a))
  {
    hide Q.Jittered, Q.Envelope, Q.WholeSeconds, Q.ClaimPicks;
  }

  /** Everything but the queue is as it was. */
  ghost predicate OnlyQueue(s: State, t: State) {
    t == s.(queue := t.queue)
  }

  lemma CrashStep(c: Config, r: Run, p: string) returns (next: Run)
    requires Legal(c, r) && p in After(c, r).queue.pools
    ensures Works(c, r, next) && OnlyQueue(After(c, r), After(c, next))
    ensures After(c, next).queue == Pools.Crashed(After(c, r).queue, p)
  {
    hide Pools.Crashed;
    next := Extended(c, r, Queue(Pools.Crash(p)));
  }

  /** Every worker dies; their rows stay as they are. */
  lemma {:induction false} CrashAll(c: Config, r: Run) returns (next: Run)
    requires Legal(c, r)
    ensures Works(c, r, next) && OnlyQueue(After(c, r), After(c, next))
    ensures var q, t := After(c, r).queue, After(c, next).queue;
            t.pools == map[] && t.live == map[] && t.jobs == q.jobs && t.now == q.now
    decreases After(c, r).queue.pools.Keys
  {
    hide Apply, Enabled;
    if After(c, r).queue.pools == map[] {
      QueueRunsAreRuns(c, r);
      PoolLeases.RunSlotted(c.pools, QueueRun(c, r));
      assert forall e | e in After(c, r).queue.live :: PoolSafety.Known(After(c, r).queue, e);
      Stays(c, r);
      next := r;
    } else {
      var p :| p in After(c, r).queue.pools;
      var crashed := CrashStep(c, r, p);
      assert p !in After(c, crashed).queue.pools.Keys;
      next := CrashAll(c, crashed);
      Through(c, r, crashed, next);
    }
  }

  /** The time when an open row may be claimed. */
  function Ripe(j: Q.Job, now: int): (t: int)
    ensures t >= now && t >= j.runAt && (j.leasedUntil.Some? ==> t > j.leasedUntil.value)
  {
    var t := if j.runAt > now then j.runAt else now;
    if j.leasedUntil.Some? && j.leasedUntil.value >= t then j.leasedUntil.value + 1 else t
  }

  lemma TickStep(c: Config, r: Run, t: int) returns (next: Run)
    requires Legal(c, r) && After(c, r).queue.live == map[] && t >= After(c, r).queue.now
    ensures Works(c, r, next) && After(c, next) == After(c, r).(queue := After(c, r).queue.(now := t))
  {
    next := Extended(c, r, Queue(Pools.Tick(t)));
  }

  /** An open job comes due once its worker is gone and its lease or backoff over. */
  lemma Ripen(c: Config, r: Run, k: string) returns (next: Run)
    requires Legal(c, r) && Open(After(c, r).queue, k)
    ensures Works(c, r, next) && OnlyQueue(After(c, r), After(c, next))
    ensures Due(After(c, next).queue, k) && After(c, next).queue.pools == map[]
  {
    hide Apply, Enabled, Ripe;
    var crashed := CrashAll(c, r);
    QueueRunsAreRuns(c, crashed);
    RunLeasesSet(c.pools, QueueRun(c, crashed));
    var q := After(c, crashed).queue;
    next := TickStep(c, crashed, Ripe(q.jobs[k], q.now));
    Through(c, r, crashed, next);
  }

  /* ----------------------------------------------------------- picking a job up */

  /** A pool that boots claims the one job other claims leave it, and begins it. */
  function Steps(s: Pools.State, k: string, p: string): seq<Pools.Step> {
    [Pools.Boot(p), Pools.Poll(p), Pools.Claim(p, s.jobs.Keys - {k}, {k}), Pools.Begin(p, Pools.TicketOf(s, k))]
  }

  /** The queue once pool `p` runs job `k` under a fresh ticket. */
  ghost predicate PickedUp(s: Pools.State, t: Pools.State, k: string, p: string) {
    var e := Pools.TicketOf(s, k);
    && e in t.live && t.live[e].pool == p && p in t.pools && e in t.pools[p].running
    && t.jobs.Keys == s.jobs.Keys && k in t.jobs && k in s.jobs
    && (forall j | j in s.jobs :: t.jobs[j].kind == s.jobs[j].kind && t.jobs[j].payload == s.jobs[j].payload)
  }

  lemma OneReady(s: Pools.State, k: string, n: nat)
    requires Due(s, k) && n >= 1
    ensures Q.ClaimPicks(s.jobs, s.now, n, s.jobs.Keys - {k}, {k})
  {
    assert Q.Ready(s.jobs, s.now, s.jobs.Keys - {k}) == {k};
  }

  lemma BootAndPoll(c: Pools.Config, s: Pools.State, p: string)
    requires c.concurrency >= 1
    ensures Pools.Polled(c, Pools.Booted(s, p), p) ==
            s.(pools := s.pools[p := Pools.Pool(Pools.HasCapacity(c.concurrency), 0, {}, 0)])
  {
  }

  lemma ClaimOne(c: Pools.Config, s: Pools.State, k: string, p: string)
    requires p in s.pools && k in s.jobs
    ensures var t, e := Pools.ClaimTaken(c, s, p, {k}), Pools.TicketOf(s, k);
            && p in t.pools && t.pools[p] == s.pools[p].(loop := Pools.Starting({e}))
            && e in t.live && t.live[e].pool == p
            && t.jobs == Q.ClaimedRows(s.jobs, p, s.now + Q.WholeSeconds(c.lease), {k})
  {
    var e := Pools.TicketOf(s, k);
    assert Pools.Tickets(s, {k}) == {e};
    assert e in Pools.NewExecutions(c, s, p, {k});
  }

  lemma BeginOne(s: Pools.State, p: string, e: Pools.Ticket)
    requires p in s.pools && s.pools[p].loop == Pools.Starting({e})
    ensures var t := Pools.Begun(s, p, e);
            t.jobs == s.jobs && t.live == s.live && p in t.pools && t.pools[p].running == s.pools[p].running + {e}
  {
  }

  lemma CanPickUp(c: Pools.Config, s: Pools.State, k: string, p: string)
    returns (polled: Pools.State, claimed: Pools.State, begun: Pools.State)
    requires Due(s, k) && p !in s.pools && c.concurrency >= 1
    ensures var a := Steps(s, k, p); var booted := Pools.Booted(s, p);
            && Pools.Enabled(c, s, a[0]) && Pools.Apply(c, s, a[0]) == booted
            && Pools.Enabled(c, booted, a[1]) && Pools.Apply(c, booted, a[1]) == polled
            && Pools.Enabled(c, polled, a[2]) && Pools.Apply(c, polled, a[2]) == claimed
            && Pools.Enabled(c, claimed, a[3]) && Pools.Apply(c, claimed, a[3]) == begun
            && PickedUp(s, begun, k, p)
  {
    hide Q.ClaimPicks, Pools.Polled, Pools.ClaimTaken, Pools.Begun;
    var e := Pools.TicketOf(s, k);
    polled := Pools.Polled(c, Pools.Booted(s, p), p);
    BootAndPoll(c, s, p);
    OneReady(polled, k, c.concurrency);
    claimed := Pools.ClaimTaken(c, polled, p, {k});
    ClaimOne(c, polled, k, p);
    begun := Pools.Begun(claimed, p, e);
    BeginOne(claimed, p, e);
  }

  lemma QueueStepOn(c: Config, r: Run, x: Pools.Step) returns (next: Run)
    requires Legal(c, r) && Pools.Enabled(c.pools, After(c, r).queue, x)
    requires !x.Enqueue? && !x.Finish? && !x.Tick?
    ensures Works(c, r, next)
    ensures After(c, next) == After(c, r).(queue := Pools.Apply(c.pools, After(c, r).queue, x))
  {
    hide Pools.Enabled, Pools.Apply, Works;
    next := Extended(c, r, Queue(x));
  }

  lemma PickUp(c: Config, r: Run, k: string, p: string) returns (next: Run)
    requires Legal(c, r) && Due(After(c, r).queue, k) && p !in After(c, r).queue.pools && c.pools.concurrency >= 1
    ensures Works(c, r, next) && OnlyQueue(After(c, r), After(c, next))
    ensures PickedUp(After(c, r).queue, After(c, next).queue, k, p)
  {
    hide Apply, Enabled, Pools.Enabled, Pools.Apply, Due, PickedUp, Pools.TicketOf, Pools.Booted, OnLease;
    var s := After(c, r).queue;
    var a := Steps(s, k, p);
    var polled, claimed, begun := CanPickUp(c.pools, s, k, p);
    var r1 := QueueStepOn(c, r, a[0]);
    var r2 := QueueStepOn(c, r1, a[1]);
    var r3 := QueueStepOn(c, r2, a[2]);
    next := QueueStepOn(c, r3, a[3]);
    Through(c, r, r1, r2);
    Through(c, r, r2, r3);
    Through(c, r, r3, next);
  }

  /* ------------------------------------------------------------------- paying */

  ghost predicate Loaded(s: State, e: Pools.Ticket, inv: Invoice) {
    Handling(s, e, Q.PAYOUT) && e in s.handling && s.handling[e] == NeedsTreasury(inv)
  }

  ghost predicate Payable(inv: Invoice) {
    inv.status == Approved && inv.payee.Some? && inv.payee.value != ""
  }

  ghost predicate Funded(s: State, org: Id) {
    org in s.rules && s.rules[org].treasury.Some?
  }

  /** Everything but the queue, the ledger and the handlers' progress. */
  ghost predicate SameBooks(s: State, t: State) {
    t.rules == s.rules && t.invoices == s.invoices && t.approvals == s.approvals && t.deciding == s.deciding
  }

  lemma HandlerStepOn(c: Config, r: Run, e: Pools.Ticket, h: HandlerStep) returns (next: Run)
    requires Legal(c, r) && HandlerEnabled(After(c, r), e, h)
    ensures Works(c, r, next) && After(c, next) == HandlerAfter(c, After(c, r), e, h)
  {
    hide HandlerAfter, HandlerEnabled, Works;
    next := Extended(c, r, InHandler(e, h));
  }

  /** The job is picked up and its handler reads the invoice. */
  lemma LoadDue(c: Config, r: Run, i: Id, p: string) returns (next: Run, e: Pools.Ticket)
    requires Legal(c, r) && c.pools.concurrency >= 1 && p !in After(c, r).queue.pools
    requires i in After(c, r).invoices && Payable(After(c, r).invoices[i]) && Due(After(c, r).queue, PayoutKey(i))
    ensures Works(c, r, next)
    ensures Loaded(After(c, next), e, After(c, r).invoices[i]) && e.0 == PayoutKey(i)
    ensures After(c, next).queue.jobs[e.0].payload == i
    ensures SameBooks(After(c, r), After(c, next))
  {
    hide Apply, Enabled, Sound, PayoutKey, Payable, OnLease, ReadInvoice;
    var s := After(c, r);
    e := Pools.TicketOf(s.queue, PayoutKey(i));
    FreshTicket(c, r, PayoutKey(i));
    RunSound(c, r);
    PayoutJobNames(s, i);
    var up := PickUp(c, r, PayoutKey(i), p);
    PayableLoads(s.invoices, i);
    hide Pools.TicketOf;
    assert Handling(After(c, up), e, Q.PAYOUT);
    next := HandlerStepOn(c, up, e, LoadInvoice);
    Through(c, r, up, next);
  }

  lemma FreshTicket(c: Config, r: Run, k: string)
    requires Legal(c, r)
    ensures Pools.TicketOf(After(c, r).queue, k) !in After(c, r).handling
  {
    hide Legal, After;
    RunIssued(c, r);
  }

  lemma PayableLoads(invoices: map<Id, Invoice>, i: Id)
    requires i in invoices && Payable(invoices[i])
    ensures ReadInvoice(invoices, i) == NeedsTreasury(invoices[i])
  {
  }

  lemma PayoutJobNames(s: State, i: Id)
    requires Sound(s) && PayoutKey(i) in s.queue.jobs
    ensures s.queue.jobs[PayoutKey(i)].kind == Q.PAYOUT && s.queue.jobs[PayoutKey(i)].payload == i
  {
    assert SoundJob(s, PayoutKey(i));
    PayoutKeyInjective(i, s.queue.jobs[PayoutKey(i)].payload);
  }

  lemma SentParts(s: State, e: Pools.Ticket)
    requires e.0 in s.queue.jobs && e in s.handling && s.handling[e].NeedsSend?
    requires e.0 == PayoutKey(s.queue.jobs[e.0].payload)
    ensures var t := Sent(s, e, Answered);
            && SameBooks(s, t) && t.queue == s.queue && e.0 in t.ledger.seen
            && e in t.handling && t.handling[e] == NeedsMark
  {
    hide PayoutKey;
  }

  /** A handler that has read its invoice pays it, whatever has become of the invoice
      since. */
  lemma PayLoaded(c: Config, r: Run, e: Pools.Ticket, inv: Invoice) returns (next: Run)
    requires Legal(c, r) && !c.payDemo && Loaded(After(c, r), e, inv) && Funded(After(c, r), inv.org)
    requires e.0 == PayoutKey(After(c, r).queue.jobs[e.0].payload)
    ensures Works(c, r, next)
    ensures e.0 in After(c, next).ledger.seen && SameBooks(After(c, r), After(c, next))
    ensures After(c, next).queue == After(c, r).queue
    ensures e in After(c, next).handling && After(c, next).handling[e] == NeedsMark
  {
    hide PayoutKey, Apply, Enabled, OnLease, Sent;
    var named := HandlerStepOn(c, r, e, LoadTreasury);
    SentParts(After(c, named), e);
    next := HandlerStepOn(c, named, e, Send(Answered));
    Through(c, r, named, next);
  }

  /** In demo mode nothing is sent. */
  lemma SkipSending(c: Config, r: Run, e: Pools.Ticket, inv: Invoice) returns (next: Run)
    requires Legal(c, r) && c.payDemo && Loaded(After(c, r), e, inv) && Funded(After(c, r), inv.org)
    ensures Works(c, r, next) && SameBooks(After(c, r), After(c, next))
    ensures After(c, next).queue == After(c, r).queue
    ensures e in After(c, next).handling && After(c, next).handling[e] == NeedsMark
  {
    hide Apply, Enabled, OnLease;
    next := HandlerStepOn(c, r, e, LoadTreasury);
  }

  lemma MarkSent(c: Config, r: Run, e: Pools.Ticket) returns (next: Run)
    requires Legal(c, r) && Handling(After(c, r), e, Q.PAYOUT)
    requires e in After(c, r).handling && After(c, r).handling[e] == NeedsMark
    ensures Works(c, r, next) && After(c, next).ledger == After(c, r).ledger
    ensures After(c, next).invoices == MarkPaid(After(c, r).invoices, After(c, r).queue.jobs[e.0].payload)
  {
    hide Apply, Enabled, OnLease;
    next := HandlerStepOn(c, r, e, Mark(true));
  }

  /** Marked paid, and outside demo mode paid. */
  ghost predicate Completed(c: Config, s: State, i: Id) {
    i in s.invoices && s.invoices[i].status == Paid && (!c.payDemo ==> PayoutKey(i) in s.ledger.seen)
  }

  lemma DeliverDue(c: Config, r: Run, i: Id) returns (next: Run)
    requires Legal(c, r) && c.pools.concurrency >= 1 && After(c, r).queue.pools == map[]
    requires i in After(c, r).invoices && Payable(After(c, r).invoices[i]) && Due(After(c, r).queue, PayoutKey(i))
    requires Funded(After(c, r), After(c, r).invoices[i].org)
    ensures Works(c, r, next) && Completed(c, After(c, next), i)
  {
    hide Apply, Enabled, Due, Payable, PayoutKey, OnLease;
    var loaded, e := LoadDue(c, r, i, "pool");
    var sent;
    if c.payDemo {
      sent := SkipSending(c, loaded, e, After(c, r).invoices[i]);
    } else {
      sent := PayLoaded(c, loaded, e, After(c, r).invoices[i]);
    }
    next := MarkSent(c, sent, e);
    Through(c, r, loaded, sent);
    Through(c, r, sent, next);
  }

  /** From every reachable state with an open payout job for an approved invoice that
      has a payee and a treasury behind it, some continuation pays it and marks it:
      a worker that died with the lease and a job that waits out its backoff
      included. */
  lemma OpenPayoutCanComplete(c: Config, r: Run, i: Id) returns (next: Run)
    requires Legal(c, r) && c.pools.concurrency >= 1 && Open(After(c, r).queue, PayoutKey(i))
    requires i in After(c, r).invoices && Payable(After(c, r).invoices[i])
    requires Funded(After(c, r), After(c, r).invoices[i].org)
    ensures Works(c, r, next) && Completed(c, After(c, next), i)
  {
    hide Apply, Enabled, Open, Due, Payable, PayoutKey, OnLease;
    var ripe := Ripen(c, r, PayoutKey(i));
    next := DeliverDue(c, ripe, i);
    Through(c, r, ripe, next);
  }

  /* ----------------------------------------------------------- closed for good */

  /** Only a handler's mark makes an invoice paid. */
  lemma OnlyMarkPays(c: Config, s: State, a: Step, i: Id)
    requires Enabled(c, s, a) && i in s.invoices && s.invoices[i].status != Paid
    requires i in Apply(c, s, a).invoices && Apply(c, s, a).invoices[i].status == Paid
    ensures a.InHandler? && a.h.Mark? && Handling(s, a.e, Q.PAYOUT) && s.queue.jobs[a.e.0].payload == i
  {
    hide Enabled, Apply, Committed, HandlerAfter, DecidedOn;
    if DecidedOn(c, s, a).Some? {
      DecisionStepCommits(c, s, a);
      CommitNeverPays(c, s, DecidedOn(c, s, a).value, i);
    } else if a.InHandler? {
      HandlerOnly(c, s, a);
      HandlerFrame(c, s, a.e, a.h);
    } else {
      RowsAlone(c, s, a);
    }
  }

  lemma CommitNeverPays(c: Config, s: State, snap: Snapshot, i: Id)
    requires i in s.invoices && s.invoices[i].status != Paid
    ensures i in Committed(c, s, snap).invoices && Committed(c, s, snap).invoices[i].status != Paid
  {
    DecideTxFootprint(c.conflictAborts, Tables(s), s.queue.now, snap);
    hide DecideTx;
  }

  lemma {:induction false} QueueWithin(c: Config, q: Run, r: Run)
    requires Legal(c, r) && Within(q, r) && Legal(c, q)
    ensures Pools.Within(QueueRun(c, q), QueueRun(c, r))
  {
    hide Apply, Enabled, QueueStep;
    if q != r {
      QueueWithin(c, q, r.prior);
    }
  }

  lemma LeaseBefore(c: Config, r: Run)
    requires Legal(c, r) && r.Then? && OnLease(c, r)
    ensures OnLease(c, r.prior)
  {
    hide Apply, Enabled, QueueStep;
    QueueRunsAreRuns(c, r.prior);
  }

  /** Under the lease discipline a payout job that is done or dead is never worked on
      again. */
  lemma ClosedNeverHandled(c: Config, q: Run, r: Run, e: Pools.Ticket, i: Id)
    requires Legal(c, r) && Within(q, r) && Legal(c, q) && OnLease(c, r)
    requires PayoutKey(i) in After(c, q).queue.jobs && !Open(After(c, q).queue, PayoutKey(i))
    ensures !(Handling(After(c, r), e, Q.PAYOUT) && After(c, r).queue.jobs[e.0].payload == i)
  {
    hide Apply, Enabled, Sound, PayoutKey, Open;
    if Handling(After(c, r), e, Q.PAYOUT) && After(c, r).queue.jobs[e.0].payload == i {
      RunSound(c, r);
      PayoutJobKey(After(c, r), e.0, i);
      QueueWithin(c, q, r);
      QueueRunsAreRuns(c, q);
      QueueRunsAreRuns(c, r);
      ClosedIsFinished(After(c, q).queue, PayoutKey(i));
      PoolLeases.FinishedJobsStay(c.pools, QueueRun(c, q), QueueRun(c, r), PayoutKey(i));
      PoolLeases.OneExecutionPerJob(c.pools, QueueRun(c, r), e, e);
    }
  }

  lemma PayoutJobKey(s: State, k: string, i: Id)
    requires Sound(s) && k in s.queue.jobs && s.queue.jobs[k].kind == Q.PAYOUT && s.queue.jobs[k].payload == i
    ensures k == PayoutKey(i)
  {
    assert SoundJob(s, k);
  }

  lemma ClosedIsFinished(s: Pools.State, k: string)
    requires k in s.jobs && !Open(s, k)
    ensures s.jobs[k].status in {Q.Done, Q.Dead}
  {
    match s.jobs[k].status
    case Pending | Claimed | Done | Dead =>
  }

  lemma {:induction false} ClosedPayoutNeverMarked(c: Config, q: Run, r: Run, i: Id)
    requires Legal(c, r) && Within(q, r) && Legal(c, q) && OnLease(c, r)
    requires PayoutKey(i) in After(c, q).queue.jobs && !Open(After(c, q).queue, PayoutKey(i))
    requires i in After(c, q).invoices && After(c, q).invoices[i].status != Paid
    ensures i in After(c, r).invoices && After(c, r).invoices[i].status != Paid
  {
    hide Apply, Enabled, PayoutKey, OnLease, Open;
    if q != r {
      LeaseBefore(c, r);
      ClosedPayoutNeverMarked(c, q, r.prior, i);
      StepExtends(c, After(c, r.prior), r.step);
      if After(c, r).invoices[i].status == Paid {
        OnlyMarkPays(c, After(c, r.prior), r.step, i);
        ClosedNeverHandled(c, q, r.prior, r.step.e, i);
      }
    }
  }

  /** Under the lease discipline an approved invoice with a payee, a treasury and a
      payout job can still be paid and marked exactly while that job is pending or
      claimed. A job that has used up its attempts leaves it unpaid for good. */
  lemma CanCompleteIffOpen(c: Config, r: Run, i: Id)
    requires Legal(c, r) && OnLease(c, r) && c.pools.concurrency >= 1
    requires i in After(c, r).invoices && Payable(After(c, r).invoices[i])
    requires Funded(After(c, r), After(c, r).invoices[i].org) && PayoutKey(i) in After(c, r).queue.jobs
    ensures (exists next :: Continues(c, r, next) && Completed(c, After(c, next), i)) <==>
            Open(After(c, r).queue, PayoutKey(i))
  {
    hide Apply, Enabled, PayoutKey, OnLease, Open;
    if Open(After(c, r).queue, PayoutKey(i)) {
      var next := OpenPayoutCanComplete(c, r, i);
    } else {
      forall next | Continues(c, r, next) ensures !Completed(c, After(c, next), i) {
        ClosedPayoutNeverMarked(c, r, next, i);
      }
    }
  }
}
