/** Runs in which every decision's transaction comes in time, one whose reads and
    transaction are a single step among them: the job and the status agree, statuses
    only move forward, and a reject is final. These are exactly the runs for which
    that holds, and the code has others. */
module Decisions {
  import opened Domain
  import opened Policies
  import opened Approvals
  import opened Protocol
  import opened Payments
  import Q = Queue
  import Pools
  import PoolSafety

  ghost predicate HasReject(s: State, i: Id) {
    exists a | (i, a) in s.approvals :: s.approvals[(i, a)] == Reject
  }

  /** The payout job, the decision rows and the status tell the same story. */
  ghost predicate Coherent(s: State, i: Id)
    requires i in s.invoices
  {
    var status := s.invoices[i].status;
    && status in {PendingApproval, Approved, Paid, Rejected}
    && (PayoutKey(i) in s.queue.jobs <==> status in {Approved, Paid})
    && (HasReject(s, i) <==> status == Rejected)
  }

  ghost predicate Settled(s: State) {
    && (forall row | row in s.approvals :: row.0 in s.invoices)
    && (forall i | i in s.invoices :: Coherent(s, i))
  }

  ghost predicate StatusMove(before: InvoiceStatus, after: InvoiceStatus) {
    || before == after
    || (before == PendingApproval && after in {Approved, Rejected, Paid})
    || (before == Approved && after == Paid)
  }

  /* ---------------------------------------------------------- one step each */

  lemma SameRowsCoherent(s: State, s': State, i: Id)
    requires i in s.invoices && i in s'.invoices && Coherent(s, i)
    requires s'.invoices[i].status == s.invoices[i].status
    requires PayoutKey(i) in s'.queue.jobs <==> PayoutKey(i) in s.queue.jobs
    requires forall a :: (i, a) in s'.approvals <==> (i, a) in s.approvals
    requires forall a | (i, a) in s.approvals :: s'.approvals[(i, a)] == s.approvals[(i, a)]
    ensures Coherent(s', i)
  {
    if HasReject(s, i) {
      var a :| (i, a) in s.approvals && s.approvals[(i, a)] == Reject;
      assert (i, a) in s'.approvals && s'.approvals[(i, a)] == Reject;
    }
    if HasReject(s', i) {
      var a :| (i, a) in s'.approvals && s'.approvals[(i, a)] == Reject;
      assert (i, a) in s.approvals && s.approvals[(i, a)] == Reject;
    }
  }

  lemma CommitElsewhere(c: Config, s: State, snap: Snapshot, i: Id)
    requires Settled(s) && i in s.invoices && i != snap.invoice
    ensures i in Committed(c, s, snap).invoices && Coherent(Committed(c, s, snap), i)
    ensures Committed(c, s, snap).invoices[i] == s.invoices[i]
  {
    var s' := Committed(c, s, snap);
    DecideTxFootprint(c.conflictAborts, Tables(s), s.queue.now, snap);
    PayoutKeyInjective(i, snap.invoice);
    assert Coherent(s, i);
    SameRowsCoherent(s, s', i);
  }

  /** The decision's own invoice: pending before, so no job and no reject row. */
  lemma CommitHere(c: Config, s: State, snap: Snapshot)
    requires Settled(s) && snap.invoice in s.invoices && s.invoices[snap.invoice].status == PendingApproval
    ensures snap.invoice in Committed(c, s, snap).invoices && Coherent(Committed(c, s, snap), snap.invoice)
  {
    hide IsEligible, Approvers, PayoutKey, Q.NewRow;
    var i := snap.invoice;
    var s' := Committed(c, s, snap);
    assert Coherent(s, i);
    var row := (i, snap.approver);
    DecideTxFootprint(c.conflictAborts, Tables(s), s.queue.now, snap);
    if s'.approvals != s.approvals && snap.verdict == Reject {
      assert row in s'.approvals && s'.approvals[row] == Reject;
    }
    assert !HasReject(s, i);
    forall a | (i, a) in s'.approvals && s'.approvals[(i, a)] == Reject
      ensures (i, a) == row && snap.verdict == Reject {
    }
  }

  lemma RefusedCommit(c: Config, s: State, snap: Snapshot)
    requires !GateAllows(s, snap)
    ensures Committed(c, s, snap) == s
  {
    hide GateOf;
  }

  lemma RejectCommit(c: Config, s: State, snap: Snapshot)
    requires GateAllows(s, snap) && snap.verdict == Reject && snap.invoice in s.invoices
    ensures Committed(c, s, snap) ==
            s.(invoices := s.invoices[snap.invoice := s.invoices[snap.invoice].(status := Rejected)],
               approvals := s.approvals[(snap.invoice, snap.approver) := Reject])
  {
    hide GateOf;
  }

  /** A first approval that the gate lets through is counted, and carries its invoice
      exactly when it completes the number required. */
  lemma ApproveCommit(c: Config, s: State, snap: Snapshot)
    requires GateAllows(s, snap) && snap.verdict == Approve && snap.invoice in s.invoices
    requires PayoutKey(snap.invoice) !in s.queue.jobs
    ensures var t, i := Committed(c, s, snap), snap.invoice;
            var enough := |Approvers(s.approvals, i)| + 1 >= snap.route.required;
            && (i, snap.approver) !in s.approvals
            && t.approvals == s.approvals[(i, snap.approver) := Approve]
            && t.invoices == (if enough then s.invoices[i := s.invoices[i].(status := Approved)] else s.invoices)
            && (PayoutKey(i) in t.queue.jobs <==> enough)
  {
    assert (snap.invoice, snap.approver) !in s.approvals;
    hide GateOf, PayoutKey;
    ApproversAfterRow(s.approvals, snap.invoice, snap.approver);
  }

  /** The payout job such an approval writes is for that invoice, due at once and
      allowed eight attempts, and no other row of the job table changes. */
  lemma ApprovalQueuesPayout(c: Config, s: State, snap: Snapshot)
    requires GateAllows(s, snap) && snap.verdict == Approve && snap.invoice in s.invoices
    requires PayoutKey(snap.invoice) !in s.queue.jobs
    requires |Approvers(s.approvals, snap.invoice)| + 1 >= snap.route.required
    ensures var jobs, k := Committed(c, s, snap).queue.jobs, "payout:" + snap.invoice;
            && k in jobs && jobs == s.queue.jobs[k := jobs[k]]
            && Q.NewlyQueued(jobs[k], "payout", snap.invoice, 0, s.queue.now)
  {
    hide GateAllows, Approvers, Committed;
    ApproveCommit(c, s, snap);
    CommittedRows(c, s, snap);
  }

  lemma CommittedRows(c: Config, s: State, snap: Snapshot)
    ensures var jobs := Committed(c, s, snap).queue.jobs;
            || jobs == s.queue.jobs
            || jobs == s.queue.jobs[PayoutKey(snap.invoice) := Q.NewRow(s.queue.now, PayoutParams(snap.invoice))]
  {
    DecideTxFootprint(c.conflictAborts, Tables(s), s.queue.now, snap);
    hide DecideTx;
  }

  /** The answer tells what was done: why the gate refused, that the invoice is now
      rejected, how many approvals are on file and how many the route requires, and
      that the invoice is approved exactly when they suffice. */
  lemma AnswerIsTrue(c: Config, s: State, snap: Snapshot)
    requires snap.invoice in s.invoices
    ensures var t, i := Committed(c, s, snap), snap.invoice;
            match DecideTx(c.conflictAborts, Tables(s), s.queue.now, snap).1
            case Refused(code) => t == s && !GateAllows(s, snap) && code != Allowed
            case WasRejected => snap.verdict == Reject && i in t.invoices && t.invoices[i].status == Rejected
            case Counted(collected, required, fully) =>
              && snap.verdict == Approve && collected == |Approvers(t.approvals, i)| && required == snap.route.required
              && (fully <==> collected >= required)
              && i in t.invoices && (fully ==> t.invoices[i].status == Approved)
              && (!fully ==> t.invoices == s.invoices)
            case Aborted => t == s && PayoutKey(i) in s.queue.jobs && snap.verdict == Approve
  {
    hide GateOf, Approvers, PayoutKey, Q.NewRow;
  }

  /** A transaction that comes in time to a settled invoice changes nothing. */
  lemma SettledCommitIsIdle(c: Config, s: State, snap: Snapshot)
    requires InTime(c, s, snap) && snap.invoice in s.invoices && s.invoices[snap.invoice].status != PendingApproval
    ensures Committed(c, s, snap) == s
  {
    if GateAllows(s, snap) {
      ApproversAfterRow(s.approvals, snap.invoice, snap.approver);
    }
  }

  lemma CommitSettled(c: Config, s: State, snap: Snapshot)
    requires Settled(s) && snap.invoice in s.invoices && InTime(c, s, snap)
    ensures Settled(Committed(c, s, snap))
  {
    if s.invoices[snap.invoice].status == PendingApproval {
      PendingCommitSettled(c, s, snap);
    } else {
      SettledCommitIsIdle(c, s, snap);
    }
  }

  lemma PendingCommitSettled(c: Config, s: State, snap: Snapshot)
    requires Settled(s) && snap.invoice in s.invoices && s.invoices[snap.invoice].status == PendingApproval
    ensures Settled(Committed(c, s, snap))
  {
    var s' := Committed(c, s, snap);
    DecideTxFootprint(c.conflictAborts, Tables(s), s.queue.now, snap);
    forall i | i in s'.invoices ensures Coherent(s', i) {
      if i == snap.invoice {
        CommitHere(c, s, snap);
      } else {
        CommitElsewhere(c, s, snap, i);
      }
    }
  }

  lemma CreateSettled(s: State, id: Id, inv: Invoice)
    requires Settled(s) && Sound(s) && id !in s.invoices && inv.status == PendingApproval
    ensures Settled(Created(s, id, inv))
  {
    var s' := Created(s, id, inv);
    forall i | i in s'.invoices ensures Coherent(s', i) {
      PayoutKeyInjective(i, id);
      if i in s.invoices {
        assert Coherent(s, i);
        SameRowsCoherent(s, s', i);
      } else if PayoutKey(i) in s.queue.jobs {
        assert SoundJob(s, PayoutKey(i));
        PayoutKeyInjective(i, s.queue.jobs[PayoutKey(i)].payload);
      }
    }
  }

  /** Only an invoice with a payout job is marked, and such an invoice is approved
      or paid already. */
  lemma MarkedHasJob(s: State, e: Pools.Ticket)
    requires Sound(s) && Settled(s) && Handling(s, e, Q.PAYOUT)
    ensures var i := s.queue.jobs[e.0].payload; i in s.invoices && s.invoices[i].status in {Approved, Paid}
  {
    assert SoundJob(s, e.0);
    assert Coherent(s, s.queue.jobs[e.0].payload);
  }

  lemma HandlerSettled(c: Config, s: State, e: Pools.Ticket, h: HandlerStep)
    requires Sound(s) && Settled(s) && HandlerEnabled(s, e, h)
    ensures Settled(HandlerAfter(c, s, e, h))
  {
    hide HandlerAfter, SoundPhase, SoundTransfer, Accounted, PayoutKey;
    var s' := HandlerAfter(c, s, e, h);
    HandlerFrame(c, s, e, h);
    if h.Mark? {
      MarkedHasJob(s, e);
    }
    forall i | i in s'.invoices ensures Coherent(s', i) {
      assert Coherent(s, i);
      SameRejects(s, s', i);
      hide HasReject;
    }
  }

  lemma SameRejects(s: State, t: State, i: Id)
    requires t.approvals == s.approvals
    ensures HasReject(t, i) == HasReject(s, i)
  {
  }

  lemma QueueSettled(c: Config, s: State, x: Pools.Step)
    requires Settled(s) && Pools.Enabled(c.pools, s.queue, x) && !x.Enqueue?
    ensures Settled(s.(queue := Pools.Apply(c.pools, s.queue, x)))
  {
    var s' := s.(queue := Pools.Apply(c.pools, s.queue, x));
    PoolSafety.RowsKept(c.pools, s.queue, x);
    forall i | i in s'.invoices ensures Coherent(s', i) {
      assert Coherent(s, i);
      SameRowsCoherent(s, s', i);
    }
  }

  lemma SameTablesSettled(s: State, s': State)
    requires Settled(s) && s'.invoices == s.invoices && s'.approvals == s.approvals && s'.queue.jobs == s.queue.jobs
    ensures Settled(s')
  {
    forall i | i in s'.invoices ensures Coherent(s', i) {
      assert Coherent(s, i);
      SameRowsCoherent(s, s', i);
    }
  }

  ghost predicate StepInTime(c: Config, s: State, a: Step)
    requires Enabled(c, s, a)
  {
    DecidedOn(c, s, a).Some? ==> InTime(c, s, DecidedOn(c, s, a).value)
  }

  lemma StepSettled(c: Config, s: State, a: Step)
    requires Sound(s) && Settled(s) && Enabled(c, s, a) && StepInTime(c, s, a)
    ensures Settled(Apply(c, s, a))
  {
    match a
    case Queue(x) => QueueSettled(c, s, x);
    case DecideAtOnce(snap) => CommitSettled(c, s, snap);
    case CommitDecision(call) =>
      CommitSettled(c, s, s.deciding[call]);
      SameTablesSettled(Committed(c, s, s.deciding[call]), Apply(c, s, a));
    case CreateInvoice(random, inv, _) => CreateSettled(s, InvoiceId(random), inv);
    case InHandler(e, h) => HandlerSettled(c, s, e, h);
    case _ => SameTablesSettled(s, Apply(c, s, a));
  }

  /** What one step may do to an invoice: move its status forward, and add a
      decision row only while it is pending. */
  ghost predicate Advances(s: State, s': State, i: Id)
    requires i in s.invoices
  {
    && i in s'.invoices
    && StatusMove(s.invoices[i].status, s'.invoices[i].status)
    && (s.invoices[i].status == PendingApproval ==> s'.invoices[i].status != Paid)
    && (s.invoices[i].status != PendingApproval ==> forall m | (i, m) in s'.approvals :: (i, m) in s.approvals)
  }

  lemma CommitAdvances(c: Config, s: State, snap: Snapshot, i: Id)
    requires InTime(c, s, snap) && snap.invoice in s.invoices && i in s.invoices
    ensures Advances(s, Committed(c, s, snap), i)
  {
    DecideTxFootprint(c.conflictAborts, Tables(s), s.queue.now, snap);
    if s.invoices[snap.invoice].status != PendingApproval {
      SettledCommitIsIdle(c, s, snap);
    }
  }

  lemma HandlerAdvances(c: Config, s: State, e: Pools.Ticket, h: HandlerStep, i: Id)
    requires Sound(s) && Settled(s) && HandlerEnabled(s, e, h) && i in s.invoices
    ensures Advances(s, HandlerAfter(c, s, e, h), i)
  {
    hide HandlerAfter, Sound, Settled;
    HandlerFrame(c, s, e, h);
    if h.Mark? {
      MarkedHasJob(s, e);
    }
  }

  lemma StepAdvances(c: Config, s: State, a: Step, i: Id)
    requires Sound(s) && Settled(s) && Enabled(c, s, a) && StepInTime(c, s, a) && i in s.invoices
    ensures Advances(s, Apply(c, s, a), i)
  {
    hide Sound, Settled, Enabled, Apply, Committed, HandlerAfter, DecidedOn, InTime;
    if DecidedOn(c, s, a).Some? {
      DecidedKnowsInvoice(c, s, a);
      CommitAdvances(c, s, DecidedOn(c, s, a).value, i);
      DecisionStepCommits(c, s, a);
    } else if a.InHandler? {
      HandlerOnly(c, s, a);
      HandlerAdvances(c, s, a.e, a.h, i);
    } else {
      RowsAlone(c, s, a);
    }
  }

  lemma {:induction false} RunSettled(c: Config, r: Run)
    requires Legal(c, r) && Punctual(c, r)
    ensures Settled(After(c, r))
  {
    if r.Then? {
      RunSettled(c, r.prior);
      RunSound(c, r.prior);
      StepSettled(c, After(c, r.prior), r.step);
    }
  }

  /* ------------------------------------------------------------ main results */

  /** A payout job exists for an invoice exactly when it is approved or paid, and a
      reject row exactly when it is rejected. */
  lemma JobIffApproved(c: Config, r: Run, i: Id)
    requires Legal(c, r) && Punctual(c, r) && i in After(c, r).invoices
    ensures var s := After(c, r); var status := s.invoices[i].status;
            && (PayoutKey(i) in s.queue.jobs <==> status in {Approved, Paid})
            && (HasReject(s, i) <==> status == Rejected)
            && status in {PendingApproval, Approved, Paid, Rejected}
  {
    RunSettled(c, r);
    assert Coherent(After(c, r), i);
  }

  /** The duplicate branch of a decision is unreachable: a transaction that finds
      its invoice pending never finds the payout job already there. */
  lemma NoDuplicatePayout(c: Config, r: Run, snap: Snapshot)
    requires Legal(c, r) && Punctual(c, r)
    requires snap.invoice in After(c, r).invoices && After(c, r).invoices[snap.invoice].status == PendingApproval
    ensures PayoutKey(snap.invoice) !in After(c, r).queue.jobs
    ensures DecideTx(c.conflictAborts, Tables(After(c, r)), After(c, r).queue.now, snap).1 != Aborted
  {
    hide Apply, Enabled, HasReject, GateOf, Approvers;
    RunSettled(c, r);
    assert Coherent(After(c, r), snap.invoice);
  }

  /** Statuses only move forward, and the path never skips approval on its way to
      paid; once an invoice has left pending its decision rows are closed. */
  lemma {:induction false} StatusOnlyAdvances(c: Config, q: Run, r: Run, i: Id)
    requires Legal(c, r) && Punctual(c, r) && Within(q, r) && Legal(c, q) && i in After(c, q).invoices
    ensures i in After(c, r).invoices
    ensures StatusMove(After(c, q).invoices[i].status, After(c, r).invoices[i].status)
    ensures After(c, q).invoices[i].status != PendingApproval ==>
              forall m | (i, m) in After(c, r).approvals :: (i, m) in After(c, q).approvals
  {
    hide Apply, Enabled, Sound, Settled;
    if q != r {
      StatusOnlyAdvances(c, q, r.prior, i);
      RunSettled(c, r.prior);
      RunSound(c, r.prior);
      StepAdvances(c, After(c, r.prior), r.step, i);
    }
  }

  /** One reject vetoes every later payment. */
  lemma RejectIsFinal(c: Config, q: Run, r: Run, i: Id)
    requires Legal(c, r) && Punctual(c, r) && Within(q, r) && Legal(c, q) && i in After(c, q).invoices
    requires HasReject(After(c, q), i)
    ensures i in After(c, r).invoices && After(c, r).invoices[i].status == Rejected
    ensures PayoutKey(i) !in After(c, r).ledger.seen
  {
    Protocol.PrefixLegal(c, q, r);
    JobIffApproved(c, q, i);
    StatusOnlyAdvances(c, q, r, i);
    JobIffApproved(c, r, i);
    RunSound(c, r);
    if PayoutKey(i) in After(c, r).ledger.seen {
      PaymentHasJob(c, r, i);
    }
  }

  /* ---------------------------------------- exactly the runs for which it holds */

  /** Throughout the run the three tables agree and every invoice only advances. */
  ghost predicate StoryKept(c: Config, r: Run)
    requires Legal(c, r)
  {
    && Settled(After(c, r))
    && (r.Then? ==> StoryKept(c, r.prior)
                    && forall i | i in After(c, r.prior).invoices :: Advances(After(c, r.prior), After(c, r), i))
  }

  /** A late decision that goes through adds a row to an invoice already closed. */
  lemma LateCommitIntrudes(c: Config, s: State, snap: Snapshot)
    requires snap.invoice in s.invoices && !InTime(c, s, snap)
    requires PayoutKey(snap.invoice) in s.queue.jobs <==> s.invoices[snap.invoice].status in {Approved, Paid}
    ensures !Advances(s, Committed(c, s, snap), snap.invoice)
  {
    ApproversAfterRow(s.approvals, snap.invoice, snap.approver);
    var row := (snap.invoice, snap.approver);
    assert row !in s.approvals && row in Committed(c, s, snap).approvals;
  }

  lemma LateStepIntrudes(c: Config, s: State, a: Step)
    requires Sound(s) && Settled(s) && Enabled(c, s, a) && !StepInTime(c, s, a)
    ensures exists i | i in s.invoices :: !Advances(s, Apply(c, s, a), i)
  {
    var snap := DecidedOn(c, s, a).value;
    assert snap.invoice in s.invoices && Coherent(s, snap.invoice);
    LateCommitIntrudes(c, s, snap);
    assert Advances(s, Apply(c, s, a), snap.invoice) == Advances(s, Committed(c, s, snap), snap.invoice);
  }

  /** The tables agree and every invoice only advances exactly in the runs whose
      decisions all come in time. */
  lemma {:induction false} StoryKeptIffPunctual(c: Config, r: Run)
    requires Legal(c, r)
    ensures StoryKept(c, r) <==> Punctual(c, r)
  {
    if r.Then? {
      StoryKeptIffPunctual(c, r.prior);
      var s := After(c, r.prior);
      RunSound(c, r.prior);
      if Punctual(c, r) {
        RunSettled(c, r);
        forall i | i in s.invoices ensures Advances(s, After(c, r), i) {
          StepAdvances(c, s, r.step, i);
        }
      } else if StoryKept(c, r) {
        LateStepIntrudes(c, s, r.step);
      }
    }
  }
}
