/** The veto. A reject and a payout job stay apart in exactly the runs in which no
    decision overrides another. That is enough to keep a rejected invoice unpaid and
    more than it takes: money and reject stay apart in exactly the runs in which no
    reject commits over a payment and no request for a rejected invoice reaches the
    provider. */
module Veto {
  import opened Domain
  import opened Approvals
  import opened Payout
  import opened Protocol
  import opened Payments
  import opened Decisions
  import Entitlement
  import Pools

  /** A reject and a payout job for one invoice. */
  ghost predicate Both(s: State, i: Id) {
    HasReject(s, i) && PayoutKey(i) in s.queue.jobs
  }

  ghost predicate NeverBoth(c: Config, r: Run)
    requires Legal(c, r)
  {
    && (forall i :: !Both(After(c, r), i))
    && (r.Then? ==> NeverBoth(c, r.prior))
  }

  /** The gate lets through a reject over a payout job, or an approval that completes
      its quorum over a reject. */
  ghost predicate Overrides(s: State, snap: Snapshot) {
    && GateAllows(s, snap)
    && if snap.verdict == Reject then PayoutKey(snap.invoice) in s.queue.jobs
       else HasReject(s, snap.invoice) && |Approvers(s.approvals, snap.invoice)| + 1 >= snap.route.required
  }

  ghost predicate NoneOverrides(c: Config, r: Run)
    requires Legal(c, r)
  {
    r.Then? ==>
      && NoneOverrides(c, r.prior)
      && var s := After(c, r.prior);
         DecidedOn(c, s, r.step).Some? ==> !Overrides(s, DecidedOn(c, s, r.step).value)
  }

  lemma FewerRejects(s: State, t: State, i: Id)
    requires forall a | (i, a) in t.approvals && t.approvals[(i, a)] == Reject ::
               (i, a) in s.approvals && s.approvals[(i, a)] == Reject
    ensures HasReject(t, i) ==> HasReject(s, i)
  {
  }

  /** A committed decision makes both of an invoice only by overriding. */
  lemma CommitMakesBoth(c: Config, s: State, snap: Snapshot, i: Id)
    requires snap.invoice in s.invoices && !Both(s, i) && Both(Committed(c, s, snap), i)
    ensures Overrides(s, snap)
  {
    var t := Committed(c, s, snap);
    PayoutKeyInjective(i, snap.invoice);
    DecideTxFootprint(c.conflictAborts, Tables(s), s.queue.now, snap);
    hide DecideTx, GateAllows, PayoutKey, HasReject, Approvers;
    if !GateAllows(s, snap) {
      RefusedCommit(c, s, snap);
    } else if snap.verdict == Reject {
      RejectCommit(c, s, snap);
      if i != snap.invoice {
        FewerRejects(s, t, i);
      }
    } else {
      FewerRejects(s, t, i);
      if PayoutKey(snap.invoice) !in s.queue.jobs {
        ApproveCommit(c, s, snap);
      }
    }
  }

  lemma OverridingMakesBoth(c: Config, s: State, snap: Snapshot)
    requires snap.invoice in s.invoices && Overrides(s, snap) && !Both(s, snap.invoice)
    ensures Both(Committed(c, s, snap), snap.invoice)
  {
    hide Committed, DecideTx, GateAllows, PayoutKey, Approvers;
    var row, t := (snap.invoice, snap.approver), Committed(c, s, snap);
    if snap.verdict == Reject {
      RejectCommit(c, s, snap);
      assert row in t.approvals && t.approvals[row] == Reject;
    } else {
      ApproveCommit(c, s, snap);
      var a :| (snap.invoice, a) in s.approvals && s.approvals[(snap.invoice, a)] == Reject;
      assert (snap.invoice, a) in t.approvals && t.approvals[(snap.invoice, a)] == Reject;
    }
  }

  /** Steps that are no decision add neither rejects nor payout jobs. */
  lemma OthersMakeNeither(c: Config, s: State, a: Step, i: Id)
    requires Enabled(c, s, a) && DecidedOn(c, s, a).None? && Both(Apply(c, s, a), i)
    ensures Both(s, i)
  {
    hide Apply, Enabled, DecidedOn;
    OnlyDecisionsEnqueuePayouts(c, s, a, i);
    StepExtends(c, s, a);
    var x :| (i, x) in Apply(c, s, a).approvals && Apply(c, s, a).approvals[(i, x)] == Reject;
    if (i, x) !in s.approvals {
      Entitlement.NewRow(c, s, a, (i, x));
    }
    assert (i, x) in s.approvals && s.approvals[(i, x)] == Reject;
  }

  lemma DecisionMakesBoth(c: Config, s: State, a: Step)
    requires Sound(s) && Enabled(c, s, a) && DecidedOn(c, s, a).Some? && forall i :: !Both(s, i)
    ensures Overrides(s, DecidedOn(c, s, a).value) <==> exists i :: Both(Apply(c, s, a), i)
  {
    var snap := DecidedOn(c, s, a).value;
    DecidedKnowsInvoice(c, s, a);
    DecisionStepCommits(c, s, a);
    hide Apply, Enabled, DecidedOn, Sound, Overrides, Committed;
    if Overrides(s, snap) {
      OverridingMakesBoth(c, s, snap);
      assert Both(Apply(c, s, a), snap.invoice);
    } else if i :| Both(Apply(c, s, a), i) {
      CommitMakesBoth(c, s, snap, i);
    }
  }

  /** No invoice ever has both a reject and a payout job in exactly the runs in which
      no reject commits over a payout job and no approval completes its quorum over
      a reject. */
  lemma {:induction false} VetoHoldsIffNoneOverrides(c: Config, r: Run)
    requires Legal(c, r)
    ensures NeverBoth(c, r) <==> NoneOverrides(c, r)
  {
    hide Apply, Enabled, Overrides, Both, Sound;
    if r.Start? {
      NothingAtFirst();
    } else {
      VetoHoldsIffNoneOverrides(c, r.prior);
      RunSound(c, r.prior);
      var s := After(c, r.prior);
      if DecidedOn(c, s, r.step).None? {
        forall i ensures Both(After(c, r), i) ==> Both(s, i) {
          if Both(After(c, r), i) {
            OthersMakeNeither(c, s, r.step, i);
          }
        }
      } else if NeverBoth(c, r.prior) {
        DecisionMakesBoth(c, s, r.step);
        assert After(c, r) == Apply(c, s, r.step);
        assert NeverBoth(c, r) <==> !Overrides(s, DecidedOn(c, s, r.step).value);
      }
    }
  }

  lemma NothingAtFirst()
    ensures forall i :: !Both(INITIAL, i)
  {
  }

  /** Where none overrides, one reject means no payment, ever. */
  lemma RejectedIsNeverPaid(c: Config, r: Run, i: Id)
    requires Legal(c, r) && NoneOverrides(c, r) && HasReject(After(c, r), i)
    ensures PayoutKey(i) !in After(c, r).ledger.seen
  {
    hide HasReject, Apply, Enabled;
    VetoHoldsIffNoneOverrides(c, r);
    assert !Both(After(c, r), i);
    if PayoutKey(i) in After(c, r).ledger.seen {
      PaymentHasJob(c, r, i);
    }
  }

  /* ------------------------------------------------------ the reject and the money */

  /** A payment for an invoice with a reject on file. */
  ghost predicate PaidOver(s: State, i: Id) {
    HasReject(s, i) && PayoutKey(i) in s.ledger.seen
  }

  ghost predicate NeverPaidOver(c: Config, r: Run)
    requires Legal(c, r)
  {
    && (forall i :: !PaidOver(After(c, r), i))
    && (r.Then? ==> NeverPaidOver(c, r.prior))
  }

  /** The keys under which the step brings a request to the provider: one sent and
      not lost, or one under way that arrives. */
  ghost function Reaching(s: State, a: Step): set<string> {
    if a.Arrive? then {a.key}
    else if a.InHandler? && a.h.Send? && (a.h.answer.Answered? || a.h.answer.Arrived?) && a.e.0 in s.queue.jobs
    then {PayoutKey(s.queue.jobs[a.e.0].payload)}
    else {}
  }

  /** The gate lets through a reject of an invoice the provider has paid. */
  ghost predicate RejectsPaid(s: State, snap: Snapshot) {
    GateAllows(s, snap) && snap.verdict == Reject && PayoutKey(snap.invoice) in s.ledger.seen
  }

  /** A request reaches the provider for an invoice with a reject on file. */
  ghost predicate PaysRejected(s: State, a: Step) {
    exists i :: HasReject(s, i) && PayoutKey(i) in Reaching(s, a)
  }

  ghost predicate NoneTrespasses(c: Config, r: Run)
    requires Legal(c, r)
  {
    r.Then? ==>
      && NoneTrespasses(c, r.prior)
      && var s := After(c, r.prior);
         && !PaysRejected(s, r.step)
         && (DecidedOn(c, s, r.step).Some? ==> !RejectsPaid(s, DecidedOn(c, s, r.step).value))
  }

  lemma SentReached(s: State, e: Pools.Ticket, answer: Answer)
    requires e.0 in s.queue.jobs && e in s.handling && s.handling[e].NeedsSend?
    ensures Sent(s, e, answer).ledger.seen.Keys == s.ledger.seen.Keys + Reaching(s, InHandler(e, Send(answer)))
  {
    hide PayoutKey, TransferFor;
  }

  lemma HandlerReached(c: Config, s: State, e: Pools.Ticket, h: HandlerStep)
    requires HandlerEnabled(s, e, h)
    ensures HandlerAfter(c, s, e, h).ledger.seen.Keys == s.ledger.seen.Keys + Reaching(s, InHandler(e, h))
  {
    hide PayoutKey, Sent, ReadInvoice, ReadTreasury, MarkPaid;
    match h
    case Send(answer) => SentReached(s, e, answer);
    case _ =>
  }

  lemma LedgerReached(c: Config, s: State, a: Step)
    requires Enabled(c, s, a)
    ensures Apply(c, s, a).ledger.seen.Keys == s.ledger.seen.Keys + Reaching(s, a)
  {
    hide Committed, HandlerAfter, HandlerEnabled, DeskAfter, PayoutKey, ReadsIn, QueueEnabled, DeskEnabled, Pools.Apply;
    match a
    case CommitDecision(call) => CommittedFrame(c, s, s.deciding[call]);
    case DecideAtOnce(snap) => CommittedFrame(c, s, snap);
    case InHandler(e, h) => HandlerReached(c, s, e, h);
    case _ =>
  }

  lemma OthersKeepRejects(c: Config, s: State, a: Step, i: Id)
    requires Enabled(c, s, a) && DecidedOn(c, s, a).None?
    ensures HasReject(Apply(c, s, a), i) == HasReject(s, i)
  {
    hide Apply, Enabled, DecidedOn, HasReject;
    if a.InHandler? {
      HandlerOnly(c, s, a);
      HandlerFrame(c, s, a.e, a.h);
    } else {
      RowsAlone(c, s, a);
    }
    SameRejects(s, Apply(c, s, a), i);
  }

  /** A step that is no decision pays over a reject by bringing a request to the
      provider. */
  lemma RequestPaysOver(c: Config, s: State, a: Step)
    requires Enabled(c, s, a) && DecidedOn(c, s, a).None? && forall i :: !PaidOver(s, i)
    ensures PaysRejected(s, a) <==> exists i :: PaidOver(Apply(c, s, a), i)
  {
    hide Apply, Enabled, DecidedOn, HasReject, PayoutKey, Reaching;
    LedgerReached(c, s, a);
    forall i ensures PaidOver(Apply(c, s, a), i) <==> HasReject(s, i) && PayoutKey(i) in Reaching(s, a) {
      OthersKeepRejects(c, s, a, i);
      assert !PaidOver(s, i);
    }
  }

  /** A decision pays over a reject by rejecting what is paid. */
  lemma CommitPaysOver(c: Config, s: State, snap: Snapshot)
    requires snap.invoice in s.invoices && forall i :: !PaidOver(s, i)
    ensures RejectsPaid(s, snap) <==> exists i :: PaidOver(Committed(c, s, snap), i)
  {
    hide Committed, DecideTx, GateAllows, PayoutKey, HasReject;
    var t := Committed(c, s, snap);
    CommittedFrame(c, s, snap);
    if !GateAllows(s, snap) {
      RefusedCommit(c, s, snap);
    } else if snap.verdict == Reject {
      RejectCommit(c, s, snap);
      OwnReject(t, snap.invoice, snap.approver);
      assert RejectsPaid(s, snap) ==> PaidOver(t, snap.invoice);
      forall i | i != snap.invoice ensures PaidOver(t, i) ==> PaidOver(s, i) {
        FewerRejects(s, t, i);
      }
    } else {
      ApprovalAddsNoReject(c, s, snap);
      forall i ensures !PaidOver(t, i) {
        FewerRejects(s, t, i);
        assert !PaidOver(s, i);
      }
    }
  }

  lemma ApprovalAddsNoReject(c: Config, s: State, snap: Snapshot)
    requires snap.verdict == Approve
    ensures forall row | row in Committed(c, s, snap).approvals && Committed(c, s, snap).approvals[row] == Reject ::
              row in s.approvals && s.approvals[row] == Reject
  {
    DecideTxFootprint(c.conflictAborts, Tables(s), s.queue.now, snap);
    hide DecideTx;
  }

  lemma OwnReject(t: State, i: Id, a: Id)
    requires (i, a) in t.approvals && t.approvals[(i, a)] == Reject
    ensures HasReject(t, i)
  {
  }

  lemma DecisionPaysOver(c: Config, s: State, a: Step)
    requires Sound(s) && Enabled(c, s, a) && DecidedOn(c, s, a).Some? && forall i :: !PaidOver(s, i)
    ensures RejectsPaid(s, DecidedOn(c, s, a).value) <==> exists i :: PaidOver(Apply(c, s, a), i)
    ensures !PaysRejected(s, a)
  {
    var snap := DecidedOn(c, s, a).value;
    DecidedKnowsInvoice(c, s, a);
    DecisionStepCommits(c, s, a);
    assert Reaching(s, a) == {};
    hide Apply, Enabled, DecidedOn, Sound, Committed, RejectsPaid, HasReject, PayoutKey;
    CommitPaysOver(c, s, snap);
    forall i ensures PaidOver(Apply(c, s, a), i) <==> PaidOver(Committed(c, s, snap), i) {
      SameRejects(Committed(c, s, snap), Apply(c, s, a), i);
    }
  }

  /** No invoice is ever both paid and rejected, in either order, in exactly the runs
      in which no reject commits over a payment and no request for an invoice with a
      reject on file reaches the provider. */
  lemma {:induction false} NeverPaidOverIffNoneTrespasses(c: Config, r: Run)
    requires Legal(c, r)
    ensures NeverPaidOver(c, r) <==> NoneTrespasses(c, r)
  {
    hide Apply, Enabled, RejectsPaid, PaysRejected, PaidOver, Sound;
    if r.Start? {
      NothingPaidAtFirst();
    } else {
      NeverPaidOverIffNoneTrespasses(c, r.prior);
      if NeverPaidOver(c, r.prior) {
        RunSound(c, r.prior);
        assert After(c, r) == Apply(c, After(c, r.prior), r.step);
        if DecidedOn(c, After(c, r.prior), r.step).None? {
          RequestPaysOver(c, After(c, r.prior), r.step);
        } else {
          DecisionPaysOver(c, After(c, r.prior), r.step);
        }
      }
    }
  }

  lemma NothingPaidAtFirst()
    ensures forall i :: !PaidOver(INITIAL, i)
  {
  }

  /** Where no decision overrides another the money is safe too, but not only there:
      as long as nothing is paid a reject may come too late for the job. */
  lemma {:induction false} NoneOverridesNeverPaysOver(c: Config, r: Run)
    requires Legal(c, r) && NoneOverrides(c, r)
    ensures NeverPaidOver(c, r)
  {
    hide Apply, Enabled, HasReject;
    forall i ensures !PaidOver(After(c, r), i) {
      if HasReject(After(c, r), i) {
        RejectedIsNeverPaid(c, r, i);
      }
    }
    if r.Then? {
      NoneOverridesNeverPaysOver(c, r.prior);
    }
  }

  lemma {:induction false} UnpaidNeverPaidOver(c: Config, r: Run)
    requires Legal(c, r) && After(c, r).ledger.seen == map[]
    ensures NeverPaidOver(c, r)
  {
    hide Apply, Enabled, HasReject;
    if r.Then? {
      forall k | k in After(c, r.prior).ledger.seen ensures false {
        StepKeepsPayments(c, After(c, r.prior), r.step, k);
      }
      UnpaidNeverPaidOver(c, r.prior);
    }
  }

  /** Decisions that come in time never override. */
  lemma PunctualNeverOverrides(c: Config, r: Run)
    requires Legal(c, r) && Punctual(c, r)
    ensures NoneOverrides(c, r)
  {
    VetoHoldsIffNoneOverrides(c, r);
    PunctualNeverBoth(c, r);
  }

  lemma {:induction false} PunctualNeverBoth(c: Config, r: Run)
    requires Legal(c, r) && Punctual(c, r)
    ensures NeverBoth(c, r)
  {
    hide Apply, Enabled, InTime;
    RunSettled(c, r);
    var s := After(c, r);
    forall i ensures !Both(s, i) {
      if HasReject(s, i) {
        assert i in s.invoices && Coherent(s, i);
      }
    }
    if r.Then? {
      PunctualNeverBoth(c, r.prior);
    }
  }
}
