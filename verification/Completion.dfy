/** What a finished payout means: an invoice marked paid has been paid, and a payout
    job that is done has its invoice marked. */
module Completion {
  import opened Domain
  import opened Approvals
  import opened Payout
  import opened Protocol
  import opened Payments
  import opened Decisions
  import Q = Queue
  import Pools
  import PoolSafety
  import PoolLeases

  /* --------------------------------------------------- marked paid means paid */

  ghost predicate PayoutTicket(s: State, e: Pools.Ticket) {
    e.0 in s.queue.jobs && s.queue.jobs[e.0].kind == Q.PAYOUT
  }

  /** A handler about to mark has been told of the broadcast, and marked invoices
      have theirs. */
  ghost predicate Honest(s: State) {
    && (forall e | e in s.handling && s.handling[e].NeedsMark? :: PayoutTicket(s, e) && e.0 in s.ledger.seen)
    && (forall i | i in s.invoices && s.invoices[i].status == Paid :: PayoutKey(i) in s.ledger.seen)
  }

  lemma HandlerHonest(c: Config, s: State, e: Pools.Ticket, h: HandlerStep)
    requires !c.payDemo && Sound(s) && Honest(s) && HandlerEnabled(s, e, h)
    ensures Honest(HandlerAfter(c, s, e, h))
  {
    hide SoundPhase, SoundTransfer, Accounted, PayoutKey, NotifyKey;
    assert SoundJob(s, e.0);
    assert h.Send? ==> HandlerAfter(c, s, e, h) == Sent(s, e, h.answer);
  }

  lemma CommitHonest(c: Config, s: State, snap: Snapshot)
    requires Honest(s)
    ensures Honest(Committed(c, s, snap))
  {
    DecideTxFootprint(c.conflictAborts, Tables(s), s.queue.now, snap);
    hide DecideTx, PayoutKey, NotifyKey;
    CommitExtends(c, s, snap);
  }

  lemma StepHonest(c: Config, s: State, a: Step)
    requires !c.payDemo && Sound(s) && Honest(s) && Enabled(c, s, a)
    ensures Honest(Apply(c, s, a))
  {
    hide Sound, Committed, DeskAfter, PayoutKey;
    match a
    case InHandler(e, h) => HandlerHonest(c, s, e, h);
    case CommitDecision(call) => CommitHonest(c, s, s.deciding[call]);
    case DecideAtOnce(snap) => CommitHonest(c, s, snap);
    case Queue(x) => PoolSafety.RowsKept(c.pools, s.queue, x);
    case _ => StepExtends(c, s, a);
  }

  /** In every run outside demo mode, an invoice whose status is paid has been paid,
      in full and to its payee. */
  lemma PaidMeansPaid(c: Config, r: Run, i: Id)
    requires Legal(c, r) && !c.payDemo && i in After(c, r).invoices && After(c, r).invoices[i].status == Paid
    ensures var s := After(c, r);
            && PayoutKey(i) in s.ledger.seen
            && s.ledger.seen[PayoutKey(i)].amount == s.invoices[i].amount
            && s.invoices[i].payee == Some(s.ledger.seen[PayoutKey(i)].payee)
  {
    RunHonest(c, r);
    RunSound(c, r);
    assert SoundTransfer(After(c, r), PayoutKey(i), After(c, r).ledger.seen[PayoutKey(i)]);
    PayoutKeyInjective(i, After(c, r).queue.jobs[PayoutKey(i)].payload);
  }

  lemma {:induction false} RunHonest(c: Config, r: Run)
    requires Legal(c, r) && !c.payDemo
    ensures Honest(After(c, r))
  {
    if r.Then? {
      RunHonest(c, r.prior);
      RunSound(c, r.prior);
      StepHonest(c, After(c, r.prior), r.step);
    }
  }

  /* -------------------------------------------------------- done means marked */

  ghost predicate Marked(s: State, k: string) {
    k in s.queue.jobs && s.queue.jobs[k].payload in s.invoices && s.invoices[s.queue.jobs[k].payload].status == Paid
  }

  /** A payout handler that returned without an error, and a payout job that is done,
      leave their invoice marked. */
  ghost predicate Concluded(s: State) {
    && (forall e | e in s.handling :: e.0 in s.queue.jobs)
    && (forall e | PayoutTicket(s, e) && e in s.handling && s.handling[e] == Returned(true) :: Marked(s, e.0))
    && (forall k | k in s.queue.jobs && s.queue.jobs[k].kind == Q.PAYOUT && s.queue.jobs[k].status == Q.Done ::
       Marked(s, k))
  }

  /** Marked invoices stay marked, whatever step comes in time. */
  lemma MarkedStays(c: Config, s: State, a: Step, k: string)
    requires Sound(s) && Settled(s) && Enabled(c, s, a) && StepInTime(c, s, a) && Marked(s, k)
    ensures Marked(Apply(c, s, a), k)
  {
    hide Sound, Settled, Apply, Enabled, StepInTime;
    StepExtends(c, s, a);
    StepAdvances(c, s, a, s.queue.jobs[k].payload);
  }

  /** The only jobs a queue step turns done are those whose handler returned. */
  lemma QueueConcludes(c: Config, s: State, x: Pools.Step, k: string)
    requires QueueEnabled(c, s, x) && k in s.queue.jobs
    ensures var t := Pools.Apply(c.pools, s.queue, x);
            k in t.jobs && (t.jobs[k].status == Q.Done && s.queue.jobs[k].status != Q.Done ==>
              x.Finish? && x.e.0 == k && x.e in s.handling && s.handling[x.e] == Returned(true))
  {
    hide Pools.Leased, Q.Jittered, Q.Envelope, Q.WholeSeconds;
    PoolSafety.RowsKept(c.pools, s.queue, x);
    if x.Claim? || x.ClaimLost? {
      LeasingEndsNothing(c, s, x, k);
    }
  }

  lemma LeasingEndsNothing(c: Config, s: State, x: Pools.Step, k: string)
    requires Pools.Enabled(c.pools, s.queue, x) && k in s.queue.jobs && (x.Claim? || x.ClaimLost?)
    ensures var t := Pools.Apply(c.pools, s.queue, x);
            k in t.jobs && (t.jobs[k].status == Q.Done ==> s.queue.jobs[k].status == Q.Done)
  {
  }

  lemma QueueConcluded(c: Config, s: State, x: Pools.Step)
    requires Concluded(s) && QueueEnabled(c, s, x)
    ensures Concluded(s.(queue := Pools.Apply(c.pools, s.queue, x)))
  {
    hide Pools.Apply, Pools.Enabled;
    var s' := s.(queue := Pools.Apply(c.pools, s.queue, x));
    QueueRowsKept(c, s, x);
    forall k | k in s'.queue.jobs && s'.queue.jobs[k].kind == Q.PAYOUT && s'.queue.jobs[k].status == Q.Done
      ensures Marked(s', k) {
      QueueConcludes(c, s, x, k);
      if s.queue.jobs[k].status != Q.Done {
        assert PayoutTicket(s, x.e);
      }
    }
    forall e | PayoutTicket(s', e) && e in s'.handling && s'.handling[e] == Returned(true) ensures Marked(s', e.0) {
      assert PayoutTicket(s, e);
    }
  }

  lemma QueueRowsKept(c: Config, s: State, x: Pools.Step)
    requires QueueEnabled(c, s, x)
    ensures var t := Pools.Apply(c.pools, s.queue, x);
            && t.jobs.Keys == s.queue.jobs.Keys
            && (forall k | k in s.queue.jobs ::
               t.jobs[k].kind == s.queue.jobs[k].kind && t.jobs[k].payload == s.queue.jobs[k].payload)
  {
    PoolSafety.RowsKept(c.pools, s.queue, x);
  }

  /** A payout handler returns well only after marking, or on reading an invoice that
      is no longer approved: one with a payout job is then paid. */
  lemma HandlerReturnsMarked(c: Config, s: State, e: Pools.Ticket, h: HandlerStep)
    requires Sound(s) && Settled(s) && HandlerEnabled(s, e, h) && PayoutTicket(s, e)
    ensures var s' := HandlerAfter(c, s, e, h);
            e in s'.handling && (s'.handling[e] == Returned(true) ==> Marked(s', e.0))
  {
    hide SoundPhase, SoundTransfer, Accounted, PayoutKey, NotifyKey;
    MarkedHasJob(s, e);
  }

  lemma HandlerKeepsMarks(c: Config, s: State, e: Pools.Ticket, h: HandlerStep, k: string)
    requires HandlerEnabled(s, e, h) && Marked(s, k)
    ensures Marked(HandlerAfter(c, s, e, h), k)
  {
    hide HandlerAfter;
    HandlerFrame(c, s, e, h);
  }

  lemma HandlerConcluded(c: Config, s: State, e: Pools.Ticket, h: HandlerStep)
    requires Sound(s) && Settled(s) && Concluded(s) && HandlerEnabled(s, e, h)
    ensures Concluded(HandlerAfter(c, s, e, h))
  {
    hide HandlerAfter, Sound, Settled, Marked;
    var s' := HandlerAfter(c, s, e, h);
    HandlerFrame(c, s, e, h);
    forall k | Marked(s, k) ensures Marked(s', k) {
      HandlerKeepsMarks(c, s, e, h, k);
    }
    if PayoutTicket(s, e) {
      HandlerReturnsMarked(c, s, e, h);
    }
    forall x | PayoutTicket(s', x) && x in s'.handling && s'.handling[x] == Returned(true) ensures Marked(s', x.0) {
      if x != e {
        assert PayoutTicket(s, x);
      }
    }
  }

  /** Steps that neither move the queue's jobs along nor run a handler. */
  lemma OtherConcluded(c: Config, s: State, a: Step)
    requires Sound(s) && Settled(s) && Concluded(s) && Enabled(c, s, a) && StepInTime(c, s, a)
    requires !a.Queue? && !a.InHandler?
    ensures Concluded(Apply(c, s, a))
  {
    hide Apply, Enabled, Sound, Settled, StepInTime, Marked, SameTerms;
    var s' := Apply(c, s, a);
    StepExtends(c, s, a);
    OnlyNewJobs(c, s, a);
    forall k | Marked(s, k) ensures Marked(s', k) {
      MarkedStays(c, s, a, k);
    }
    forall e | PayoutTicket(s', e) && e in s'.handling && s'.handling[e] == Returned(true) ensures Marked(s', e.0) {
      assert PayoutTicket(s, e);
    }
  }

  lemma OnlyNewJobs(c: Config, s: State, a: Step)
    requires Enabled(c, s, a) && !a.Queue? && !a.InHandler?
    ensures var s' := Apply(c, s, a);
            && s'.handling == s.handling
            && (forall k | k in s.queue.jobs && k in s'.queue.jobs :: s'.queue.jobs[k] == s.queue.jobs[k])
            && (forall k | k in s'.queue.jobs && k !in s.queue.jobs :: s'.queue.jobs[k].status == Q.Pending)
  {
    hide Committed;
    match a
    case CommitDecision(call) => DecisionEnqueues(c, s, s.deciding[call]); CommittedFrame(c, s, s.deciding[call]);
    case DecideAtOnce(snap) => DecisionEnqueues(c, s, snap); CommittedFrame(c, s, snap);
    case _ =>
  }

  lemma {:induction false} RunConcluded(c: Config, r: Run)
    requires Legal(c, r) && Punctual(c, r)
    ensures Concluded(After(c, r))
  {
    if r.Then? {
      var s := After(c, r.prior);
      RunConcluded(c, r.prior);
      RunSound(c, r.prior);
      RunSettled(c, r.prior);
      hide Sound, Settled, Concluded;
      match r.step
      case Queue(x) => QueueConcluded(c, s, x);
      case InHandler(e, h) => HandlerConcluded(c, s, e, h);
      case _ => OtherConcluded(c, s, r.step);
    }
  }

  /** A payout job that is done has had its invoice marked paid. */
  lemma DoneMeansMarked(c: Config, r: Run, i: Id)
    requires Legal(c, r) && Punctual(c, r)
    requires PayoutKey(i) in After(c, r).queue.jobs && After(c, r).queue.jobs[PayoutKey(i)].status == Q.Done
    ensures i in After(c, r).invoices && After(c, r).invoices[i].status == Paid
  {
    RunConcluded(c, r);
    RunSound(c, r);
    var s := After(c, r);
    assert SoundJob(s, PayoutKey(i));
    PayoutKeyInjective(i, s.queue.jobs[PayoutKey(i)].payload);
  }

  /* ------------------------------------------------------------ whose money it is */

  /** At some point of the run this was the organisation's treasury wallet. */
  ghost predicate WasTreasury(c: Config, r: Run, org: Id, wallet: string) {
    exists q :: Within(q, r) && Legal(c, q) && HasTreasury(After(c, q), org, wallet)
  }

  ghost predicate HasTreasury(s: State, org: Id, wallet: string) {
    org in s.rules && s.rules[org].treasury == Some(wallet)
  }

  ghost predicate OwnTreasury(c: Config, r: Run, s: State, k: string, wallet: string) {
    && k in s.queue.jobs && s.queue.jobs[k].payload in s.invoices
    && WasTreasury(c, r, s.invoices[s.queue.jobs[k].payload].org, wallet)
  }

  /** Wallets about to be sent from, and wallets in requests and in payments. */
  ghost predicate FromTreasuries(c: Config, r: Run)
    requires Legal(c, r)
  {
    var s := After(c, r);
    && (forall e | e in s.handling && s.handling[e].NeedsSend? :: OwnTreasury(c, r, s, e.0, s.handling[e].wallet))
    && (forall f | f in s.flying :: OwnTreasury(c, r, s, f.0, f.1.wallet))
    && (forall k | k in s.ledger.seen :: OwnTreasury(c, r, s, k, s.ledger.seen[k].wallet))
  }

  lemma WasTreasuryStays(c: Config, r: Run, k: string, wallet: string)
    requires Legal(c, r) && r.Then? && OwnTreasury(c, r.prior, After(c, r.prior), k, wallet)
    ensures OwnTreasury(c, r, After(c, r), k, wallet)
  {
    var s := After(c, r.prior);
    var org := s.invoices[s.queue.jobs[k].payload].org;
    var q :| Within(q, r.prior) && Legal(c, q) && HasTreasury(After(c, q), org, wallet);
    assert Within(q, r);
    StepExtends(c, s, r.step);
  }

  /** Only loading the treasury names a wallet to send from, and it names the
      organisation's own at that moment. */
  lemma HandlerNamesWallet(c: Config, s: State, x: Pools.Ticket, h: HandlerStep, e: Pools.Ticket)
    requires Sound(s) && HandlerEnabled(s, x, h)
    requires e in HandlerAfter(c, s, x, h).handling && HandlerAfter(c, s, x, h).handling[e].NeedsSend?
    ensures NewWallet(s, HandlerAfter(c, s, x, h), e)
  {
    SoundHandler(s, x);
    hide Sound, SoundJob, Broadcast, MarkPaid;
  }

  /** A wallet named before, or the treasury as it stands. */
  ghost predicate NewWallet(s: State, s': State, e: Pools.Ticket)
    requires e in s'.handling && s'.handling[e].NeedsSend?
  {
    || (e in s.handling && s.handling[e] == s'.handling[e])
    || (e.0 in s.queue.jobs && s.queue.jobs[e.0].payload in s.invoices &&
        HasTreasury(s, s.invoices[s.queue.jobs[e.0].payload].org, s'.handling[e].wallet))
  }

  lemma NewWallets(c: Config, s: State, a: Step, e: Pools.Ticket)
    requires Sound(s) && Enabled(c, s, a) && e in Apply(c, s, a).handling && Apply(c, s, a).handling[e].NeedsSend?
    ensures NewWallet(s, Apply(c, s, a), e)
  {
    hide Sound, NewWallet;
    match a
    case InHandler(x, h) => HandlerNamesWallet(c, s, x, h, e);
    case _ =>
      HandlingUntouched(c, s, a);
      KnownWallet(s, Apply(c, s, a), e);
  }

  lemma KnownWallet(s: State, s': State, e: Pools.Ticket)
    requires s'.handling == s.handling && e in s'.handling && s'.handling[e].NeedsSend?
    ensures NewWallet(s, s', e)
  {
  }

  lemma HandlingUntouched(c: Config, s: State, a: Step)
    requires Enabled(c, s, a) && !a.InHandler?
    ensures Apply(c, s, a).handling == s.handling
  {
    hide Committed, DeskAfter;
    match a
    case CommitDecision(call) => CommittedFrame(c, s, s.deciding[call]);
    case DecideAtOnce(snap) => CommittedFrame(c, s, snap);
    case _ =>
  }

  /** A request is new only when a handler sends it, from the wallet it named. */
  ghost predicate SentBy(s: State, a: Step, f: (string, Transfer)) {
    || f in s.flying
    || (a.InHandler? && a.e in s.handling && s.handling[a.e].NeedsSend? && f.0 == a.e.0
        && f.1.wallet == s.handling[a.e].wallet)
  }

  lemma HandlerSends(c: Config, s: State, e: Pools.Ticket, h: HandlerStep)
    requires Sound(s) && HandlerEnabled(s, e, h)
    ensures var t := HandlerAfter(c, s, e, h);
            && (forall f | f in t.flying :: SentBy(s, InHandler(e, h), f))
            && (forall k | k in t.ledger.seen ::
                  (k in s.ledger.seen && s.ledger.seen[k] == t.ledger.seen[k]) || (k, t.ledger.seen[k]) in t.flying)
  {
    SoundHandler(s, e);
    hide Sound, MarkPaid, ReadInvoice, ReadTreasury, PayoutKey, NotifyKey;
  }

  /** Only requests become payments. */
  lemma NewTransfers(c: Config, s: State, a: Step)
    requires Sound(s) && Enabled(c, s, a)
    ensures var t := Apply(c, s, a);
            && (forall f | f in t.flying :: SentBy(s, a, f))
            && (forall k | k in t.ledger.seen ::
                  (k in s.ledger.seen && s.ledger.seen[k] == t.ledger.seen[k]) || (k, t.ledger.seen[k]) in t.flying)
  {
    hide Sound, Committed, HandlerAfter, DeskAfter;
    match a
    case InHandler(e, h) => HandlerSends(c, s, e, h);
    case CommitDecision(call) => CommittedFrame(c, s, s.deciding[call]);
    case DecideAtOnce(snap) => CommittedFrame(c, s, snap);
    case _ =>
  }

  lemma {:induction false} RunFromTreasuries(c: Config, r: Run)
    requires Legal(c, r)
    ensures FromTreasuries(c, r)
  {
    if r.Then? {
      RunFromTreasuries(c, r.prior);
      RunSound(c, r.prior);
      var s, s' := After(c, r.prior), After(c, r);
      forall e | e in s'.handling && s'.handling[e].NeedsSend?
        ensures OwnTreasury(c, r, s', e.0, s'.handling[e].wallet)
      {
        WalletOwned(c, r, e);
      }
      forall f | f in s'.flying ensures OwnTreasury(c, r, s', f.0, f.1.wallet) {
        RequestOwned(c, r, f);
      }
      forall k | k in s'.ledger.seen ensures OwnTreasury(c, r, s', k, s'.ledger.seen[k].wallet) {
        TransferOwned(c, r, k);
      }
    }
  }

  lemma WalletOwned(c: Config, r: Run, e: Pools.Ticket)
    requires Legal(c, r) && r.Then? && FromTreasuries(c, r.prior) && Sound(After(c, r.prior))
    requires e in After(c, r).handling && After(c, r).handling[e].NeedsSend?
    ensures OwnTreasury(c, r, After(c, r), e.0, After(c, r).handling[e].wallet)
  {
    hide Apply, Enabled, Sound, Extends;
    var s, s' := After(c, r.prior), After(c, r);
    NewWallets(c, s, r.step, e);
    if !(e in s.handling && s.handling[e] == s'.handling[e]) {
      assert Within(r.prior, r.prior);
      assert HasTreasury(s, s.invoices[s.queue.jobs[e.0].payload].org, s'.handling[e].wallet);
    }
    WasTreasuryStays(c, r, e.0, s'.handling[e].wallet);
  }

  lemma RequestOwned(c: Config, r: Run, f: (string, Transfer))
    requires Legal(c, r) && r.Then? && FromTreasuries(c, r.prior) && Sound(After(c, r.prior)) && f in After(c, r).flying
    ensures OwnTreasury(c, r, After(c, r), f.0, f.1.wallet)
  {
    hide Apply, Enabled, Sound, OwnTreasury;
    NewTransfers(c, After(c, r.prior), r.step);
    assert SentBy(After(c, r.prior), r.step, f);
    WasTreasuryStays(c, r, f.0, f.1.wallet);
  }

  lemma TransferOwned(c: Config, r: Run, k: string)
    requires Legal(c, r) && r.Then? && FromTreasuries(c, r.prior) && Sound(After(c, r.prior))
    requires k in After(c, r).ledger.seen
    ensures OwnTreasury(c, r, After(c, r), k, After(c, r).ledger.seen[k].wallet)
  {
    hide Apply, Enabled, Sound, OwnTreasury;
    var s, s' := After(c, r.prior), After(c, r);
    NewTransfers(c, s, r.step);
    if k in s.ledger.seen && s.ledger.seen[k] == s'.ledger.seen[k] {
      WasTreasuryStays(c, r, k, s'.ledger.seen[k].wallet);
    } else {
      RequestOwned(c, r, (k, s'.ledger.seen[k]));
    }
  }

  /** Every payment left a wallet that was, in that run, the treasury of the paid
      invoice's own organisation. */
  lemma PaidFromOwnTreasury(c: Config, r: Run, i: Id)
    requires Legal(c, r) && PayoutKey(i) in After(c, r).ledger.seen
    ensures i in After(c, r).invoices
    ensures WasTreasury(c, r, After(c, r).invoices[i].org, After(c, r).ledger.seen[PayoutKey(i)].wallet)
  {
    RunFromTreasuries(c, r);
    RunSound(c, r);
    assert SoundTransfer(After(c, r), PayoutKey(i), After(c, r).ledger.seen[PayoutKey(i)]);
    PayoutKeyInjective(i, After(c, r).queue.jobs[PayoutKey(i)].payload);
  }

  /* ------------------------------------------------- the pools inside the system */

  /** Under the lease discipline no payout is ever handled by two executions at
      once, in any run of the whole system. */
  lemma OneHandlerPerPayout(c: Config, r: Run, e: Pools.Ticket, x: Pools.Ticket)
    requires Legal(c, r) && Pools.Legal(c.pools, QueueRun(c, r)) && Pools.Disciplined(c.pools, QueueRun(c, r))
    requires Handling(After(c, r), e, Q.PAYOUT) && Handling(After(c, r), x, Q.PAYOUT)
    requires After(c, r).queue.jobs[e.0].payload == After(c, r).queue.jobs[x.0].payload
    ensures e == x
  {
    RunSound(c, r);
    assert SoundJob(After(c, r), e.0) && SoundJob(After(c, r), x.0);
    QueueRunsAreRuns(c, r);
    PoolLeases.OneExecutionPerJob(c.pools, QueueRun(c, r), e, x);
  }
}
