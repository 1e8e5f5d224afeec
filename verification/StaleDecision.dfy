/** Two runs in which a decision's transaction comes late and money leaves over a
    reject: an approval read before a reject commits after it, and a reject read
    before the approval commits while the payout is on its way. Deciding in time is a
    real assumption. */
module StaleDecision {
  import opened Domain
  import opened Policies
  import opened Approvals
  import opened Protocol
  import opened Decisions
  import opened Delivery
  import opened Veto

  const ORG: Id := "org"
  const ANN: Member := Member("ann", RoleOwner, None)
  const BOB: Member := Member("bob", RoleOwner, None)
  const TIER: Policy := Policy(true, 100, 1, [RoleOwner], None, 300, true)
  const RULES: Rules := Rules([TIER], [ANN, BOB], Some("treasury"))
  const BILL: Invoice := Invoice(ORG, "sam", 50, Some("payee"), PendingApproval)
  const ROUTE: Routing := Routing(TIER, 1, [ANN, BOB])

  const RANDOM: seq<nat> := [0, 0, 0, 0, 0, 0, 0, 0, 0, 0, 0, 0, 0, 0, 0, 0]
  const INVOICE: Id := InvoiceId(RANDOM)

  function Decision(m: Member, v: Verdict): Snapshot {
    Snapshot(INVOICE, BILL.submitter, m.id, v, ROUTE, None)
  }

  lemma Routed()
    ensures RoutesTo(BILL, RULES.policies, RULES.members, ROUTE)
    ensures MayApprove(TIER, BILL.submitter, ANN) && MayApprove(TIER, BILL.submitter, BOB)
  {
    assert MayApprove(TIER, BILL.submitter, ANN) && MayApprove(TIER, BILL.submitter, BOB);
    assert Eligible([], TIER, BILL.submitter) == [];
    assert Eligible([BOB], TIER, BILL.submitter) == [BOB];
    assert RULES.members[1..] == [BOB];
    assert Eligible(RULES.members, TIER, BILL.submitter) == [ANN, BOB];
    assert TIER in RULES.policies;
  }

  lemma OpensFor(m: Member)
    requires m in [ANN, BOB]
    ensures GateOf(ROUTE, m.id, BILL.submitter, false, None) == Allowed
  {
    assert IsEligible(ROUTE, m.id) by {
      assert m in ROUTE.eligible;
    }
  }

  /** One invoice, pending and undecided, and nothing running. */
  ghost predicate Untouched(s: State) {
    && s.rules == map[ORG := RULES] && s.invoices == map[INVOICE := BILL] && s.approvals == map[]
    && s.queue.jobs.Keys == {NotifyKey(INVOICE)} && s.queue.pools == map[] && s.ledger.seen == map[]
  }

  lemma Opened(c: Config) returns (r: Run)
    ensures Legal(c, r) && Untouched(After(c, r)) && After(c, r).deciding == map[]
  {
    hide RoutesTo, InvoiceId, NotifyKey;
    var r1 := Then(Start, Administer(ORG, RULES));
    assert Legal(c, Start) && Legal(c, r1);
    Routed();
    r := Then(r1, CreateInvoice(RANDOM, BILL, ROUTE));
    assert Legal(c, r);
  }

  lemma CanRead(s: State, m: Member, v: Verdict)
    requires s.rules == map[ORG := RULES] && s.invoices == map[INVOICE := BILL] && m in [ANN, BOB]
    ensures ReadsIn(s, Decision(m, v))
  {
    Routed();
    assert m in s.rules[ORG].members;
  }

  /** One decision read and still to commit, the other read and committed at once. */
  lemma Crossed(c: Config, late: Snapshot, early: Snapshot) returns (r: Run, s: State)
    requires late in TheTwo() && early in TheTwo()
    ensures Legal(c, r) && Untouched(s)
    ensures After(c, r) == Committed(c, s, early) && s.deciding == map[0 := late]
  {
    hide Untouched, Committed, ReadsIn, InvoiceId;
    var start := Opened(c);
    ReadsUntouched(After(c, start), late);
    var read := Then(start, ReadDecision(0, late));
    assert Legal(c, read);
    s := After(c, read);
    StillUntouched(After(c, start), s);
    ReadsUntouched(s, early);
    r := Then(read, DecideAtOnce(early));
    assert Legal(c, r);
  }

  function TheTwo(): set<Snapshot> {
    {Decision(ANN, Approve), Decision(BOB, Reject)}
  }

  lemma ReadsUntouched(s: State, snap: Snapshot)
    requires Untouched(s) && snap in TheTwo()
    ensures ReadsIn(s, snap)
  {
    CanRead(s, ANN, Approve);
    CanRead(s, BOB, Reject);
  }

  lemma StillUntouched(s: State, t: State)
    requires Untouched(s) && t == s.(deciding := t.deciding)
    ensures Untouched(t)
  {
  }

  /** The run continued by the late decision. */
  lemma CommitLate(c: Config, r: Run, late: Snapshot) returns (next: Run)
    requires Legal(c, r) && After(c, r).deciding == map[0 := late]
    ensures Legal(c, next) && Within(r, next)
    ensures After(c, next) == Committed(c, After(c, r), late).(deciding := map[])
  {
    hide Committed;
    next := Then(r, CommitDecision(0));
    assert After(c, r).deciding - {0} == map[];
    assert Within(r, r);
  }

  /** The invoice approved with its job due, whatever rows are on file. */
  ghost predicate JobDue(s: State) {
    && s.rules == map[ORG := RULES] && INVOICE in s.invoices && s.invoices[INVOICE] == BILL.(status := Approved)
    && s.queue.pools == map[] && Due(s.queue, PayoutKey(INVOICE))
  }

  /** An approval the gate lets through makes the payout due on an invoice of either
      earlier status. */
  lemma ApprovalMakesDue(c: Config, s: State, status: InvoiceStatus)
    requires s.rules == map[ORG := RULES] && s.invoices == map[INVOICE := BILL.(status := status)]
    requires s.queue.pools == map[] && PayoutKey(INVOICE) !in s.queue.jobs && (INVOICE, "ann") !in s.approvals
    ensures var t := Committed(c, s, Decision(ANN, Approve));
            JobDue(t) && t.approvals == s.approvals[(INVOICE, "ann") := Approve]
  {
    OpensFor(ANN);
    hide GateOf, PayoutKey, InvoiceId;
    assert GateAllows(s, Decision(ANN, Approve));
    ApproveCommit(c, s, Decision(ANN, Approve));
    CommittedFrame(c, s, Decision(ANN, Approve));
    DecideTxFootprint(c.conflictAborts, Tables(s), s.queue.now, Decision(ANN, Approve));
  }

  lemma RejectCloses(c: Config, s: State)
    requires INVOICE in s.invoices && (INVOICE, "bob") !in s.approvals
    ensures Committed(c, s, Decision(BOB, Reject)) ==
            s.(invoices := s.invoices[INVOICE := s.invoices[INVOICE].(status := Rejected)],
               approvals := s.approvals[(INVOICE, "bob") := Reject])
  {
    OpensFor(BOB);
    hide GateOf, InvoiceId, Committed;
    assert GateAllows(s, Decision(BOB, Reject));
    RejectCommit(c, s, Decision(BOB, Reject));
  }

  lemma NoPayoutYet(s: State)
    requires Untouched(s)
    ensures PayoutKey(INVOICE) !in s.queue.jobs
  {
    PayoutKeyInjective(INVOICE, INVOICE);
  }

  lemma RejectOnFile(s: State)
    requires (INVOICE, "bob") in s.approvals && s.approvals[(INVOICE, "bob")] == Reject
    ensures HasReject(s, INVOICE)
  {
  }

  /** Ann's approval, read earlier, goes through over bob's reject. */
  lemma ApprovedOverReject(c: Config) returns (r: Run)
    ensures Legal(c, r) && HasReject(After(c, r), INVOICE) && PayoutKey(INVOICE) in After(c, r).queue.jobs
    ensures exists s :: JobDue(s) && After(c, r) == s.(deciding := map[])
  {
    hide Untouched, Committed, Apply, Enabled, HasReject, PayoutKey, InvoiceId;
    var rejected, s := Crossed(c, Decision(ANN, Approve), Decision(BOB, Reject));
    UntouchedParts(s);
    RejectCloses(c, s);
    r := CommitLate(c, rejected, Decision(ANN, Approve));
    ApprovalMakesDue(c, After(c, rejected), Rejected);
    RejectOnFile(After(c, r));
  }

  /** Under every configuration the code has a run that approves an invoice and
      writes its payout job over a reject on file. */
  lemma StaleApprovalOverridesReject(c: Config)
    ensures exists r ::
              && Legal(c, r) && !Punctual(c, r)
              && INVOICE in After(c, r).invoices && After(c, r).invoices[INVOICE].status == Approved
              && HasReject(After(c, r), INVOICE) && PayoutKey(INVOICE) in After(c, r).queue.jobs
  {
    hide Apply, Enabled, HasReject, PayoutKey, InvoiceId;
    var r := ApprovedOverReject(c);
    if Punctual(c, r) {
      JobIffApproved(c, r, INVOICE);
    }
  }

  /** And wherever payouts run, it goes on to pay it. */
  lemma StaleApprovalPaysOverReject(c: Config)
    requires !c.payDemo && c.pools.concurrency >= 1
    ensures exists r :: Legal(c, r) && HasReject(After(c, r), INVOICE) && PayoutKey(INVOICE) in After(c, r).ledger.seen
  {
    hide Apply, Enabled, JobDue, HasReject, PayoutKey, InvoiceId;
    var late := ApprovedOverReject(c);
    var s :| JobDue(s) && After(c, late) == s.(deciding := map[]);
    JobDueParts(After(c, late), s);
    var loaded, e := LoadDue(c, late, INVOICE, "pool");
    var paid := PayLoaded(c, loaded, e, BILL.(status := Approved));
    SameRejects(After(c, late), After(c, paid), INVOICE);
  }

  lemma UntouchedParts(s: State)
    requires Untouched(s)
    ensures s.rules == map[ORG := RULES] && s.invoices == map[INVOICE := BILL] && s.approvals == map[]
    ensures s.queue.pools == map[] && PayoutKey(INVOICE) !in s.queue.jobs && s.ledger.seen == map[]
  {
    NoPayoutYet(s);
  }

  lemma JobDueParts(t: State, s: State)
    requires JobDue(s) && t == s.(deciding := t.deciding)
    ensures t.rules == map[ORG := RULES] && INVOICE in t.invoices && t.invoices[INVOICE] == BILL.(status := Approved)
    ensures Payable(t.invoices[INVOICE]) && Funded(t, ORG)
    ensures t.queue.pools == map[] && Due(t.queue, PayoutKey(INVOICE))
  {
  }

  /** Bob's reject, read earlier, commits over the job while no worker runs. It has
      overridden the approval, but no money has moved. */
  lemma LateRejectAloneIsHarmless(c: Config)
    ensures exists r :: Legal(c, r) && !NoneOverrides(c, r) && NeverPaidOver(c, r)
  {
    hide Untouched, Committed, Apply, Enabled, JobDue, HasReject, PayoutKey, InvoiceId;
    var approved, s := Crossed(c, Decision(BOB, Reject), Decision(ANN, Approve));
    UntouchedParts(s);
    ApprovalMakesDue(c, s, PendingApproval);
    CommittedFrame(c, s, Decision(ANN, Approve));
    JobDueParts(After(c, approved), After(c, approved));
    var r := CommitLate(c, approved, Decision(BOB, Reject));
    RejectCloses(c, After(c, approved));
    RejectOnFile(After(c, r));
    UnpaidNeverPaidOver(c, r);
    VetoHoldsIffNoneOverrides(c, r);
    assert Both(After(c, r), INVOICE);
  }

  /** Bob's reject, read earlier, commits once the payout handler has read the
      approved invoice: the invoice is rejected and paid. */
  lemma StaleRejectComesTooLate(c: Config)
    requires !c.payDemo && c.pools.concurrency >= 1
    ensures exists r :: Legal(c, r) && HasReject(After(c, r), INVOICE) && PayoutKey(INVOICE) in After(c, r).ledger.seen
              && INVOICE in After(c, r).invoices && After(c, r).invoices[INVOICE].status == Rejected
  {
    hide Untouched, Committed, Apply, Enabled, JobDue, HasReject, PayoutKey, InvoiceId;
    var approved, s := Crossed(c, Decision(BOB, Reject), Decision(ANN, Approve));
    UntouchedParts(s);
    ApprovalMakesDue(c, s, PendingApproval);
    CommittedFrame(c, s, Decision(ANN, Approve));
    JobDueParts(After(c, approved), After(c, approved));
    var loaded, e := LoadDue(c, approved, INVOICE, "pool");
    var rejected := CommitLate(c, loaded, Decision(BOB, Reject));
    RejectCloses(c, After(c, loaded));
    var paid := PayLoaded(c, rejected, e, BILL.(status := Approved));
    RejectOnFile(After(c, paid));
  }
}
