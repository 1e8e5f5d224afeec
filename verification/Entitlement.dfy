/** Who decided: in every run, stale decisions included, each decision row is by
    somebody the rulebook and the roster named when the decision was read. */
module Entitlement {
  import opened Domain
  import opened Policies
  import opened Approvals
  import opened Protocol
  import opened Payments

  /** The approver a tier names for the invoice as these tables stand: seated in the
      invoice's organisation in one of the tier's roles, and not the submitter where
      the tier bars its own approval. */
  ghost predicate Names(s: State, i: Id, a: Id, tier: Policy) {
    && i in s.invoices && s.invoices[i].org in s.rules
    && var inv := s.invoices[i]; var rules := s.rules[inv.org];
       && Selects(rules.policies, inv.amount, tier)
       && Listed(tier, rules.members, inv.submitter, a)
  }

  /** Somewhere in the run the decision was read, and the gate opened for it then. */
  ghost predicate Entitled(c: Config, r: Run, row: (Id, Id), verdict: Verdict) {
    exists snap :: WasRead(c, r, snap) && Opened(snap, row, verdict)
  }

  ghost predicate Opened(snap: Snapshot, row: (Id, Id), verdict: Verdict) {
    && snap.invoice == row.0 && snap.approver == row.1 && snap.verdict == verdict
    && GateOf(snap.route, snap.approver, snap.submitter, false, snap.age) == Allowed
  }

  /** A row is new only with its own decision, and then the gate opened for it. */
  lemma NewRow(c: Config, s: State, a: Step, row: (Id, Id))
    requires Enabled(c, s, a) && row in Apply(c, s, a).approvals && row !in s.approvals
    ensures DecidedOn(c, s, a).Some? && Opened(DecidedOn(c, s, a).value, row, Apply(c, s, a).approvals[row])
  {
    hide Committed, HandlerAfter, DeskAfter, Opened;
    match a
    case CommitDecision(call) => NewRowCommitted(c, s, s.deciding[call], row);
    case DecideAtOnce(snap) => NewRowCommitted(c, s, snap, row);
    case InHandler(e, h) => HandlerFrame(c, s, e, h);
    case _ =>
  }

  lemma NewRowCommitted(c: Config, s: State, snap: Snapshot, row: (Id, Id))
    requires row in Committed(c, s, snap).approvals && row !in s.approvals
    ensures Opened(snap, row, Committed(c, s, snap).approvals[row])
  {
    hide IsEligible, Approvers, PayoutKey;
    DecideTxFootprint(c.conflictAborts, Tables(s), s.queue.now, snap);
  }

  lemma {:induction false} RowEntitled(c: Config, r: Run, row: (Id, Id))
    requires Legal(c, r) && row in After(c, r).approvals
    ensures Entitled(c, r, row, After(c, r).approvals[row])
  {
    hide Apply, Enabled, Opened, ReadsIn;
    if r.Then? {
      var s := After(c, r.prior);
      if row in s.approvals {
        RowEntitled(c, r.prior, row);
        StepExtends(c, s, r.step);
      } else {
        NewRow(c, s, r.step, row);
        DecidedWasRead(c, r.prior, r.step);
      }
      var snap :| WasRead(c, r.prior, snap) && Opened(snap, row, After(c, r).approvals[row]);
      WasReadStays(c, r, snap);
    }
  }

  /** What a snapshot the gate opened for says of the tables it was read from. */
  lemma ReadNames(s: State, snap: Snapshot, row: (Id, Id), verdict: Verdict)
    requires ReadsIn(s, snap) && Opened(snap, row, verdict)
    ensures Names(s, row.0, row.1, snap.route.policy)
    ensures snap.route.policy.requiredAttestation.Some? ==>
              verdict == Approve && snap.age.Some? && snap.age.value <= snap.route.policy.attestationMaxAgeSec
  {
    var inv := s.invoices[snap.invoice];
    var rules := s.rules[inv.org];
    GateOpens(inv, rules.policies, rules.members, snap.route, snap.approver, false, snap.age);
  }

  /** Every decision on file is by somebody whom a tier in force in that run, at the
      time the decision was read, named for the invoice; where the tier asks for a
      proof it is an approval. */
  lemma DecisionsAreEntitled(c: Config, r: Run, i: Id, a: Id)
    requires Legal(c, r) && (i, a) in After(c, r).approvals
    ensures exists p, tier :: Within(p, r) && Legal(c, p) && Names(After(c, p), i, a, tier)
              && (tier.requiredAttestation.Some? ==> After(c, r).approvals[(i, a)] == Approve)
  {
    RowEntitled(c, r, (i, a));
    var verdict := After(c, r).approvals[(i, a)];
    var snap :| WasRead(c, r, snap) && Opened(snap, (i, a), verdict);
    var p :| Within(p, r) && Legal(c, p) && ReadsIn(After(c, p), snap);
    hide Apply, Enabled, Opened, ReadsIn, Names;
    ReadNames(After(c, p), snap, (i, a), verdict);
    assert Names(After(c, p), i, a, snap.route.policy);
  }

  /** Separation of duties: behind every payment stands a commit that counted at
      least the required approvals, every one of them by somebody a tier then in
      force named, and so never by the submitter where the tier bars it. */
  lemma PaidByEntitledQuorum(c: Config, r: Run, i: Id)
    requires Legal(c, r) && PayoutKey(i) in After(c, r).ledger.seen
    ensures exists q :: Within(q, r) && QuorumCommit(c, q, i) &&
              forall a | a in Approvers(After(c, q).approvals, i) ::
                exists p, tier :: Within(p, q) && Legal(c, p) && Names(After(c, p), i, a, tier)
  {
    hide Apply, Enabled, Names, QuorumCommit;
    QuorumBehindPayment(c, r, i);
    var q :| Within(q, r) && QuorumCommit(c, q, i);
    QuorumCommitLegal(c, q, i);
    forall a | a in Approvers(After(c, q).approvals, i)
      ensures exists p, tier :: Within(p, q) && Legal(c, p) && Names(After(c, p), i, a, tier) {
      OnFile(After(c, q).approvals, i, a);
      DecisionsAreEntitled(c, q, i, a);
    }
  }

  lemma QuorumCommitLegal(c: Config, q: Run, i: Id)
    requires QuorumCommit(c, q, i)
    ensures Legal(c, q)
  {
  }
}
