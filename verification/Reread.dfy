/** What the payout handler's own look at the invoice is worth: a reject that commits
    before any handler has read the invoice keeps it unpaid, its payout job
    notwithstanding, until an approval reopens it. */
module Reread {
  import opened Domain
  import opened Policies
  import opened Approvals
  import opened Payout
  import opened Protocol
  import opened Payments
  import opened Decisions
  import Q = Queue
  import Pools

  /** Rejected, and no handler past its read, no request and no payment for it. */
  ghost predicate Spared(s: State, i: Id) {
    && i in s.invoices && s.invoices[i].status == Rejected
    && PayoutKey(i) !in s.ledger.seen
    && (forall e | e in s.handling && e.0 == PayoutKey(i) :: s.handling[e].Returned?)
    && (forall f | f in s.flying :: f.0 != PayoutKey(i))
  }

  /** The decision approves an invoice, whatever its status: it completes the quorum
      and does not abort on a payout job already there. */
  ghost predicate Reopens(c: Config, s: State, snap: Snapshot) {
    && GateAllows(s, snap) && snap.verdict == Approve
    && |Approvers(s.approvals, snap.invoice)| + 1 >= snap.route.required
    && !(c.conflictAborts && PayoutKey(snap.invoice) in s.queue.jobs)
  }

  ghost predicate StepReopens(c: Config, s: State, a: Step, i: Id)
    requires Enabled(c, s, a)
  {
    DecidedOn(c, s, a).Some? && DecidedOn(c, s, a).value.invoice == i && Reopens(c, s, DecidedOn(c, s, a).value)
  }

  /** From `q` to `r` no decision approves the invoice. */
  ghost predicate NeverReopened(c: Config, q: Run, r: Run, i: Id)
    requires Legal(c, r)
  {
    q == r || (r.Then? && NeverReopened(c, q, r.prior, i) && !StepReopens(c, After(c, r.prior), r.step, i))
  }

  /** Spared in `q` and ever since. */
  ghost predicate SparedThroughout(c: Config, q: Run, r: Run, i: Id)
    requires Legal(c, r)
  {
    Spared(After(c, r), i) && (q == r || (r.Then? && SparedThroughout(c, q, r.prior, i)))
  }

  lemma AbortedCommit(c: Config, s: State, snap: Snapshot)
    requires GateAllows(s, snap) && snap.verdict == Approve
    requires |Approvers(s.approvals, snap.invoice)| + 1 >= snap.route.required
    requires c.conflictAborts && PayoutKey(snap.invoice) in s.queue.jobs
    ensures Committed(c, s, snap) == s
  {
    ApproversAfterRow(s.approvals, snap.invoice, snap.approver);
    hide GateOf, PayoutKey;
  }

  lemma ShortCommit(c: Config, s: State, snap: Snapshot)
    requires GateAllows(s, snap) && snap.verdict == Approve
    requires |Approvers(s.approvals, snap.invoice)| + 1 < snap.route.required
    ensures Committed(c, s, snap).invoices == s.invoices
  {
    ApproversAfterRow(s.approvals, snap.invoice, snap.approver);
    hide GateOf, PayoutKey;
  }

  lemma ReopeningCommit(c: Config, s: State, snap: Snapshot)
    requires Reopens(c, s, snap) && snap.invoice in s.invoices
    ensures var t := Committed(c, s, snap); snap.invoice in t.invoices && t.invoices[snap.invoice].status == Approved
  {
    ApproversAfterRow(s.approvals, snap.invoice, snap.approver);
    hide GateOf, PayoutKey;
  }

  lemma OwnCommit(c: Config, s: State, snap: Snapshot)
    requires snap.invoice in s.invoices && s.invoices[snap.invoice].status == Rejected
    ensures var t := Committed(c, s, snap);
            && snap.invoice in t.invoices
            && (t.invoices[snap.invoice].status == Rejected <==> !Reopens(c, s, snap))
  {
    hide Committed, GateAllows, PayoutKey, Approvers;
    if !GateAllows(s, snap) {
      RefusedCommit(c, s, snap);
    } else if snap.verdict == Reject {
      RejectCommit(c, s, snap);
    } else if |Approvers(s.approvals, snap.invoice)| + 1 < snap.route.required {
      ShortCommit(c, s, snap);
    } else if c.conflictAborts && PayoutKey(snap.invoice) in s.queue.jobs {
      AbortedCommit(c, s, snap);
    } else {
      ReopeningCommit(c, s, snap);
    }
  }

  lemma OtherCommit(c: Config, s: State, snap: Snapshot, i: Id)
    requires i in s.invoices && snap.invoice != i
    ensures var t := Committed(c, s, snap); i in t.invoices && t.invoices[i] == s.invoices[i]
  {
    DecideTxFootprint(c.conflictAborts, Tables(s), s.queue.now, snap);
    hide DecideTx;
  }

  lemma CommitSpares(c: Config, s: State, snap: Snapshot, i: Id)
    requires Spared(s, i)
    ensures Spared(Committed(c, s, snap), i) <==> !(snap.invoice == i && Reopens(c, s, snap))
  {
    hide Committed, Reopens, PayoutKey;
    CommittedFrame(c, s, snap);
    if snap.invoice == i {
      OwnCommit(c, s, snap);
    } else {
      OtherCommit(c, s, snap, i);
    }
  }

  /** A handler of this invoice that is not past its read reads that it is rejected,
      and returns; one of another invoice sends and marks that other invoice. */
  lemma PhaseSpared(c: Config, s: State, e: Pools.Ticket, h: HandlerStep, i: Id)
    requires Sound(s) && Spared(s, i) && HandlerEnabled(s, e, h) && e.0 == PayoutKey(i)
    ensures s.queue.jobs[e.0].payload == i && (h.LoadInvoice? || h.GiveUp?)
    ensures var t := HandlerAfter(c, s, e, h); t == s.(handling := t.handling) && t.handling[e].Returned?
  {
    assert SoundJob(s, e.0);
    hide SoundJob, SoundPhase, SoundTransfer, Accounted, TransferFor, ReadTreasury;
    PayoutKeyInjective(i, s.queue.jobs[e.0].payload);
    hide PayoutKey, NotifyKey;
  }

  lemma OtherPhase(c: Config, s: State, e: Pools.Ticket, h: HandlerStep, i: Id)
    requires Sound(s) && HandlerEnabled(s, e, h) && e.0 != PayoutKey(i)
    ensures s.queue.jobs[e.0].kind == Q.PAYOUT ==> s.queue.jobs[e.0].payload != i
    ensures var t := HandlerAfter(c, s, e, h);
            && (forall f | f in t.flying :: f in s.flying || f.0 == e.0)
            && (forall k | k in t.ledger.seen :: k in s.ledger.seen || k == e.0)
  {
    assert SoundJob(s, e.0);
    hide Sound, PayoutKey, NotifyKey, TransferFor, ReadTreasury, ReadInvoice, MarkPaid;
    assert h.Send? ==> HandlerAfter(c, s, e, h) == Sent(s, e, h.answer);
  }

  lemma HandlerSpares(c: Config, s: State, e: Pools.Ticket, h: HandlerStep, i: Id)
    requires Sound(s) && Spared(s, i) && HandlerEnabled(s, e, h)
    ensures Spared(HandlerAfter(c, s, e, h), i)
  {
    hide Sound, HandlerAfter, PayoutKey;
    HandlerFrame(c, s, e, h);
    if e.0 == PayoutKey(i) {
      PhaseSpared(c, s, e, h, i);
    } else {
      OtherPhase(c, s, e, h, i);
    }
  }

  lemma StepSpares(c: Config, s: State, a: Step, i: Id)
    requires Sound(s) && Spared(s, i) && Enabled(c, s, a)
    ensures Spared(Apply(c, s, a), i) <==> !StepReopens(c, s, a, i)
  {
    hide Sound, Committed, HandlerAfter, DeskAfter, Reopens, PayoutKey, NotifyKey, Pools.Apply, Pools.Enabled;
    match a
    case InHandler(e, h) => HandlerSpares(c, s, e, h, i);
    case CommitDecision(call) => CommitSpares(c, s, s.deciding[call], i);
    case DecideAtOnce(snap) => CommitSpares(c, s, snap, i);
    case _ =>
  }

  /** Rejected before any handler has read it, an invoice stays rejected and unpaid,
      however long its payout job is due, exactly as long as no decision approves it
      again. */
  lemma {:induction false} SparedIffNeverReopened(c: Config, q: Run, r: Run, i: Id)
    requires Legal(c, r) && Within(q, r) && Legal(c, q) && Spared(After(c, q), i)
    ensures SparedThroughout(c, q, r, i) <==> NeverReopened(c, q, r, i)
  {
    hide Apply, Enabled, Spared, StepReopens;
    if q != r {
      SparedIffNeverReopened(c, q, r.prior, i);
      if NeverReopened(c, q, r.prior, i) {
        RunSound(c, r.prior);
        StepSpares(c, After(c, r.prior), r.step, i);
      }
    }
  }
}
