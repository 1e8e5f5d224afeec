/** With tiers and roster fixed, a pending invoice never runs out of people to ask,
    and exactly the required number of approvals carries it. */
module Progress {
  import opened Domain
  import opened Policies
  import opened Approvals
  import opened Protocol
  import opened Payments
  import opened Decisions
  import Pools

  /* ------------------------------------------------------------- pigeonhole */

  ghost predicate DistinctIds(members: seq<Member>) {
    forall i, j | 0 <= i < j < |members| :: members[i].id != members[j].id
  }

  function Ids(members: seq<Member>): set<Id> {
    set m | m in members :: m.id
  }

  lemma {:induction false} EligibleDistinct(members: seq<Member>, p: Policy, submitter: Id)
    requires DistinctIds(members)
    ensures DistinctIds(Eligible(members, p, submitter))
  {
    if members != [] {
      EligibleDistinct(members[1..], p, submitter);
      var rest := Eligible(members[1..], p, submitter);
      forall m | m in rest ensures m in members[1..] {
        EligibleMembers(members[1..], p, submitter, m);
      }
      assert forall j | 0 <= j < |rest| :: rest[j] in rest;
    }
  }

  lemma {:induction false} IdsCount(members: seq<Member>)
    requires DistinctIds(members)
    ensures |Ids(members)| == |members|
  {
    if members != [] {
      var rest := members[1..];
      IdsCount(rest);
      assert Ids(members) == Ids(rest) + {members[0].id};
      assert members[0].id !in Ids(rest);
    } else {
      assert Ids(members) == {};
    }
  }

  lemma {:induction false} SubsetCount(a: set<Id>, b: set<Id>)
    requires a <= b
    ensures |a| <= |b|
    decreases a
  {
    if a != {} {
      var x :| x in a;
      SubsetCount(a - {x}, b - {x});
    }
  }

  /** Fewer voters than eligible people leave somebody out. */
  lemma SomebodyLeft(eligible: seq<Member>, voters: set<Id>)
    requires DistinctIds(eligible) && |voters| < |eligible|
    ensures exists m | m in eligible :: m.id !in voters
  {
    IdsCount(eligible);
    if Ids(eligible) <= voters {
      SubsetCount(Ids(eligible), voters);
    } else {
      var id :| id in Ids(eligible) && id !in voters;
      var m :| m in eligible && m.id == id;
    }
  }

  /* ------------------------------------------------------- one fixed routing */

  /** Every decision on the invoice was routed by `d`. */
  ghost predicate RoutedBy(c: Config, r: Run, i: Id, d: Routing)
    requires Legal(c, r)
  {
    r.Then? ==>
      && RoutedBy(c, r.prior, i, d)
      && StepRoutedBy(c, After(c, r.prior), r.step, i, d)
  }

  ghost predicate StepRoutedBy(c: Config, s: State, a: Step, i: Id, d: Routing)
    requires Enabled(c, s, a)
  {
    DecidedOn(c, s, a).Some? && DecidedOn(c, s, a).value.invoice == i ==> DecidedOn(c, s, a).value.route == d
  }

  /** Whenever the invoice existed, its organisation had these tiers and roster. */
  ghost predicate FixedRules(c: Config, r: Run, i: Id, rules: Rules)
    requires Legal(c, r)
  {
    && (r.Then? ==> FixedRules(c, r.prior, i, rules))
    && (var s := After(c, r);
        i in s.invoices ==>
          && s.invoices[i].org in s.rules
          && s.rules[s.invoices[i].org].policies == rules.policies
          && s.rules[s.invoices[i].org].members == rules.members)
  }

  /** Decisions under way on the invoice took the route `d`. */
  ghost predicate PendingRoutes(s: State, i: Id, d: Routing) {
    forall call | call in s.deciding && s.deciding[call].invoice == i :: s.deciding[call].route == d
  }

  /** Fixed tiers with distinct active ceilings and a fixed roster give every
      decision the same routing, however long it is under way. */
  lemma {:induction false} FixedRulesRouteAlike(c: Config, r: Run, i: Id, rules: Rules, d: Routing)
    requires Legal(c, r) && FixedRules(c, r, i, rules) && DistinctCeilings(rules.policies)
    requires i in After(c, r).invoices && RoutesTo(After(c, r).invoices[i], rules.policies, rules.members, d)
    ensures RoutedBy(c, r, i, d) && PendingRoutes(After(c, r), i, d)
  {
    var s := After(c, r.prior);
    if i in s.invoices {
      StepExtends(c, s, r.step);
      assert SameTerms(s.invoices[i], After(c, r).invoices[i]);
      assert RoutesTo(s.invoices[i], rules.policies, rules.members, d);
      FixedRulesRouteAlike(c, r.prior, i, rules, d);
      ReadsRouteAlike(c, s, r.step, i, rules, d);
    } else {
      NeverDecided(c, r.prior, i, d);
      RunSound(c, r.prior);
      ReadsKnowTheirInvoice(c, s, r.step, i, d);
    }
    OnlyReadingBegins(c, s, r.step);
  }

  lemma ReadsRouteAlike(c: Config, s: State, a: Step, i: Id, rules: Rules, d: Routing)
    requires Enabled(c, s, a) && i in s.invoices && DistinctCeilings(rules.policies)
    requires s.invoices[i].org in s.rules && s.rules[s.invoices[i].org].policies == rules.policies
    requires s.rules[s.invoices[i].org].members == rules.members
    requires RoutesTo(s.invoices[i], rules.policies, rules.members, d) && PendingRoutes(s, i, d)
    ensures StepRoutedBy(c, s, a, i, d)
    ensures a.ReadDecision? && a.snap.invoice == i ==> a.snap.route == d
  {
    if (a.ReadDecision? || a.DecideAtOnce?) && a.snap.invoice == i {
      RouteUnique(s.invoices[i], rules.policies, rules.members, d, a.snap.route);
    }
  }

  lemma ReadsKnowTheirInvoice(c: Config, s: State, a: Step, i: Id, d: Routing)
    requires Sound(s) && Enabled(c, s, a) && i !in s.invoices
    ensures StepRoutedBy(c, s, a, i, d)
    ensures forall call | call in s.deciding :: s.deciding[call].invoice != i
    ensures a.ReadDecision? ==> a.snap.invoice != i
  {
  }

  lemma {:induction false} NeverDecided(c: Config, r: Run, i: Id, d: Routing)
    requires Legal(c, r) && i !in After(c, r).invoices
    ensures RoutedBy(c, r, i, d)
  {
    if r.Then? {
      StepExtends(c, After(c, r.prior), r.step);
      NeverDecided(c, r.prior, i, d);
      RunSound(c, r.prior);
      ReadsKnowTheirInvoice(c, After(c, r.prior), r.step, i, d);
    }
  }

  /* ------------------------------------------------------- counting the votes */

  /** All decision rows come from the routing's list, and the approve rows stand
      below the quorum while the invoice is pending and exactly at it once it is
      approved. */
  ghost predicate OnCourse(s: State, i: Id, d: Routing)
    requires i in s.invoices
  {
    && (forall a | (i, a) in s.approvals :: IsEligible(d, a))
    && (s.invoices[i].status == PendingApproval ==> |Approvers(s.approvals, i)| < d.required)
    && (s.invoices[i].status in {Approved, Paid} ==> |Approvers(s.approvals, i)| == d.required)
  }

  lemma CommitOnCourse(c: Config, s: State, snap: Snapshot, d: Routing)
    requires snap.invoice in s.invoices && s.invoices[snap.invoice].status == PendingApproval
    requires Coherent(s, snap.invoice) && OnCourse(s, snap.invoice, d) && snap.route == d
    ensures snap.invoice in Committed(c, s, snap).invoices && OnCourse(Committed(c, s, snap), snap.invoice, d)
  {
    hide HasReject, IsEligible, PayoutKey, Committed, Approvers;
    var row := (snap.invoice, snap.approver);
    if !GateAllows(s, snap) {
      RefusedCommit(c, s, snap);
    } else if snap.verdict == Approve {
      ApproveCommit(c, s, snap);
      ApproversAfterRow(s.approvals, snap.invoice, snap.approver);
    } else {
      RejectCommit(c, s, snap);
      ApproversElsewhere(s.approvals, row, Reject, snap.invoice);
    }
  }

  lemma SameRowsOnCourse(s: State, s': State, i: Id, d: Routing)
    requires i in s.invoices && i in s'.invoices && OnCourse(s, i, d)
    requires s'.invoices[i].status == s.invoices[i].status
        || (s.invoices[i].status == Approved && s'.invoices[i].status == Paid)
    requires s'.approvals == s.approvals
    ensures OnCourse(s', i, d)
  {
  }

  lemma OtherCommitOnCourse(c: Config, s: State, snap: Snapshot, i: Id, d: Routing)
    requires i in s.invoices && OnCourse(s, i, d) && i != snap.invoice
    ensures i in Committed(c, s, snap).invoices && OnCourse(Committed(c, s, snap), i, d)
  {
    var s', row := Committed(c, s, snap), (snap.invoice, snap.approver);
    DecideTxFootprint(c.conflictAborts, Tables(s), s.queue.now, snap);
    if s'.approvals != s.approvals {
      ApproversElsewhere(s.approvals, row, snap.verdict, i);
    }
  }

  lemma AnyCommitOnCourse(c: Config, s: State, snap: Snapshot, i: Id, d: Routing)
    requires Settled(s) && InTime(c, s, snap) && snap.invoice in s.invoices
    requires i in s.invoices ==> OnCourse(s, i, d)
    requires snap.invoice == i ==> snap.route == d
    requires i in Committed(c, s, snap).invoices
    ensures OnCourse(Committed(c, s, snap), i, d)
  {
    CommitKeepsIds(c, s, snap);
    if snap.invoice != i {
      OtherCommitOnCourse(c, s, snap, i, d);
    } else if s.invoices[i].status == PendingApproval {
      assert Coherent(s, i);
      CommitOnCourse(c, s, snap, d);
    } else {
      SettledCommitIsIdle(c, s, snap);
    }
  }

  lemma NewInvoiceOnCourse(s: State, id: Id, inv: Invoice, d: Routing)
    requires Settled(s) && id !in s.invoices && inv.status == PendingApproval && d.required >= 1
    ensures OnCourse(Created(s, id, inv), id, d)
  {
    assert Approvers(s.approvals, id) == {};
  }

  lemma StepOnCourse(c: Config, s: State, a: Step, i: Id, d: Routing)
    requires Sound(s) && Settled(s) && Enabled(c, s, a) && StepInTime(c, s, a)
    requires d.required >= 1
    requires i in s.invoices ==> OnCourse(s, i, d)
    requires StepRoutedBy(c, s, a, i, d)
    requires i in Apply(c, s, a).invoices
    ensures OnCourse(Apply(c, s, a), i, d)
  {
    hide Sound, Settled, Enabled, Apply, Committed, HandlerAfter, DecidedOn, InTime, OnCourse;
    var s' := Apply(c, s, a);
    if DecidedOn(c, s, a).Some? {
      var snap := DecidedOn(c, s, a).value;
      DecidedKnowsInvoice(c, s, a);
      DecisionStepCommits(c, s, a);
      AnyCommitOnCourse(c, s, snap, i, d);
      SameRowsOnCourse(Committed(c, s, snap), s', i, d);
    } else if a.InHandler? {
      HandlerOnly(c, s, a);
      HandlerKeepsRows(c, s, a.e, a.h);
      SameRowsOnCourse(s, s', i, d);
    } else {
      RowsAlone(c, s, a);
      if i in s.invoices {
        SameRowsOnCourse(s, s', i, d);
      } else {
        OnlyCreationAdds(c, s, a, i);
        NewInvoiceOnCourse(s, i, a.inv, d);
      }
    }
  }

  lemma OnlyCreationAdds(c: Config, s: State, a: Step, i: Id)
    requires Enabled(c, s, a) && DecidedOn(c, s, a).None? && !a.InHandler?
    requires i !in s.invoices && i in Apply(c, s, a).invoices
    ensures a.CreateInvoice? && a.inv.status == PendingApproval && Apply(c, s, a) == Created(s, i, a.inv)
  {
    hide DeskAfter, Pools.Apply, Pools.Enabled;
  }

  lemma HandlerKeepsRows(c: Config, s: State, e: Pools.Ticket, h: HandlerStep)
    requires Sound(s) && Settled(s) && HandlerEnabled(s, e, h)
    ensures var s' := HandlerAfter(c, s, e, h);
            && s'.approvals == s.approvals && s'.invoices.Keys == s.invoices.Keys
            && (forall i | i in s.invoices :: s'.invoices[i].status == s.invoices[i].status
                  || (s.invoices[i].status == Approved && s'.invoices[i].status == Paid))
  {
    hide HandlerAfter, Sound, Settled;
    HandlerFrame(c, s, e, h);
    if h.Mark? {
      MarkedHasJob(s, e);
    }
  }

  lemma {:induction false} RunOnCourse(c: Config, r: Run, i: Id, d: Routing)
    requires Legal(c, r) && Punctual(c, r) && RoutedBy(c, r, i, d) && d.required >= 1
    requires i in After(c, r).invoices
    ensures OnCourse(After(c, r), i, d)
  {
    var s := After(c, r.prior);
    if i in s.invoices {
      RunOnCourse(c, r.prior, i, d);
    }
    RunSettled(c, r.prior);
    RunSound(c, r.prior);
    StepOnCourse(c, s, r.step, i, d);
  }

  /* ------------------------------------------------------------ main results */

  /** An approved or paid invoice has exactly the required approvals, a pending one
      fewer, and every decision row is by somebody the routing lists. */
  lemma QuorumExact(c: Config, r: Run, i: Id, d: Routing)
    requires Legal(c, r) && Punctual(c, r) && RoutedBy(c, r, i, d) && d.required >= 1
    requires i in After(c, r).invoices
    ensures var s := After(c, r); var collected := |Approvers(s.approvals, i)|;
            && (s.invoices[i].status in {Approved, Paid} ==> collected == d.required)
            && (s.invoices[i].status == PendingApproval ==> collected < d.required)
            && (forall a | (i, a) in s.approvals :: IsEligible(d, a))
  {
    RunOnCourse(c, r, i, d);
  }

  /** The people the routing lists who have approved. */
  ghost function Approving(s: State, i: Id, d: Routing): set<Id> {
    set m | m in d.eligible && (i, m.id) in s.approvals && s.approvals[(i, m.id)] == Approve :: m.id
  }

  lemma ApproversApprove(s: State, i: Id, d: Routing)
    requires forall a | (i, a) in s.approvals :: IsEligible(d, a)
    ensures Approvers(s.approvals, i) == Approving(s, i, d) <= Ids(d.eligible)
  {
    forall a ensures a in Approvers(s.approvals, i) <==> a in Approving(s, i, d) {
      OnFile(s.approvals, i, a);
    }
  }

  lemma FullSubset(a: set<Id>, b: set<Id>)
    requires a <= b && |a| == |b|
    ensures a == b
  {
    if x :| x in b && x !in a {
      SubsetCount(a, b - {x});
    }
  }

  /** With fixed tiers and a fixed roster of distinct members, an invoice is approved or
      paid only once exactly as many listed people have approved as its tier wants, at
      least one; where the tier wants at least as many as it has, every one of them
      has. With nobody to list it never is. */
  lemma ApprovedByExactly(c: Config, r: Run, i: Id, rules: Rules, d: Routing)
    requires Legal(c, r) && Punctual(c, r) && FixedRules(c, r, i, rules)
    requires DistinctCeilings(rules.policies) && DistinctIds(rules.members)
    requires i in After(c, r).invoices && After(c, r).invoices[i].status in {Approved, Paid}
    requires RoutesTo(After(c, r).invoices[i], rules.policies, rules.members, d)
    ensures var wanted, listed := d.policy.requiredApprovals, |d.eligible|;
            && listed > 0
            && |Approving(After(c, r), i, d)| == (if wanted < 1 then 1 else if wanted < listed then wanted else listed)
            && (wanted >= listed ==> forall m | m in d.eligible ::
                  (i, m.id) in After(c, r).approvals && After(c, r).approvals[(i, m.id)] == Approve)
  {
    hide Apply, Enabled, Approvers, HasReject;
    var s := After(c, r);
    FixedRulesRouteAlike(c, r, i, rules, d);
    QuorumExact(c, r, i, d);
    ApproversApprove(s, i, d);
    EligibleDistinct(rules.members, d.policy, s.invoices[i].submitter);
    IdsCount(d.eligible);
    SubsetCount(Approvers(s.approvals, i), Ids(d.eligible));
    if d.policy.requiredApprovals >= |d.eligible| {
      FullSubset(Approvers(s.approvals, i), Ids(d.eligible));
      forall m | m in d.eligible ensures m.id in Approvers(s.approvals, i) {
        assert m.id in Ids(d.eligible);
      }
      forall m | m in d.eligible ensures (i, m.id) in s.approvals && s.approvals[(i, m.id)] == Approve {
        OnFile(s.approvals, i, m.id);
      }
    }
  }

  /** A pending invoice whose routing lists anybody has an eligible approver who has
      not decided, and the gate lets that approver through given a fresh proof where
      the tier asks for one. */
  lemma PendingHasSomebodyToAsk(c: Config, r: Run, i: Id, rules: Rules, d: Routing)
    requires Legal(c, r) && Punctual(c, r) && RoutedBy(c, r, i, d)
    requires i in After(c, r).invoices && After(c, r).invoices[i].status == PendingApproval
    requires RoutesTo(After(c, r).invoices[i], rules.policies, rules.members, d)
    requires DistinctIds(rules.members) && d.eligible != []
    ensures exists m | m in d.eligible ::
              && (i, m.id) !in After(c, r).approvals
              && forall age: Option<int> |
                   d.policy.requiredAttestation.Some? ==> age.Some? && age.value <= d.policy.attestationMaxAgeSec ::
                   GateOf(d, m.id, After(c, r).invoices[i].submitter, false, age) == Allowed
  {
    var s := After(c, r);
    RunOnCourse(c, r, i, d);
    RunSettled(c, r);
    assert Coherent(s, i);
    EligibleDistinct(rules.members, d.policy, s.invoices[i].submitter);
    var m := Undecided(s, i, d);
    assert (i, m.id) !in s.approvals;
    EligibleMembers(rules.members, d.policy, s.invoices[i].submitter, m);
    forall age: Option<int> |
      d.policy.requiredAttestation.Some? ==> age.Some? && age.value <= d.policy.attestationMaxAgeSec
      ensures GateOf(d, m.id, s.invoices[i].submitter, false, age) == Allowed
    {
      GateOpens(s.invoices[i], rules.policies, rules.members, d, m.id, false, age);
    }
  }

  lemma Undecided(s: State, i: Id, d: Routing) returns (m: Member)
    requires i in s.invoices && OnCourse(s, i, d) && Coherent(s, i)
    requires s.invoices[i].status == PendingApproval
    requires DistinctIds(d.eligible) && d.required <= |d.eligible|
    ensures m in d.eligible && (i, m.id) !in s.approvals
  {
    SomebodyLeft(d.eligible, Approvers(s.approvals, i));
    m :| m in d.eligible && m.id !in Approvers(s.approvals, i);
    assert !HasReject(s, i);
    OnFile(s.approvals, i, m.id);
  }

  /** Each approval the gate allows brings the invoice exactly one closer, and the
      one that makes the count the required number is the one that approves it. */
  lemma ApprovalsCountDown(c: Config, r: Run, snap: Snapshot, d: Routing)
    requires Legal(c, r) && Punctual(c, r) && RoutedBy(c, r, snap.invoice, d) && d.required >= 1
    requires snap.route == d && snap.verdict == Approve
    requires snap.invoice in After(c, r).invoices && After(c, r).invoices[snap.invoice].status == PendingApproval
    requires var s := After(c, r);
             GateOf(d, snap.approver, snap.submitter, (snap.invoice, snap.approver) in s.approvals,
               snap.age) == Allowed
    ensures var i, s, s' := snap.invoice, After(c, r), Committed(c, After(c, r), snap);
            && |Approvers(s'.approvals, i)| == |Approvers(s.approvals, i)| + 1 <= d.required
            && i in s'.invoices
            && s'.invoices[i].status ==
                 (if |Approvers(s.approvals, i)| + 1 == d.required then Approved else PendingApproval)
  {
    var s := After(c, r);
    RunOnCourse(c, r, snap.invoice, d);
    NoDuplicatePayout(c, r, snap);
    hide Committed, GateOf;
    ApproveCommit(c, s, snap);
    ApproversAfterRow(s.approvals, snap.invoice, snap.approver);
  }

  /* -------------------------------------------------------------- rejections */

  /** A reject is read without a proof. */
  lemma {:induction false} RejectsCarryNoProof(c: Config, r: Run)
    requires Legal(c, r)
    ensures forall call | call in After(c, r).deciding && After(c, r).deciding[call].verdict == Reject ::
              After(c, r).deciding[call].age == None
  {
    if r.Then? {
      RejectsCarryNoProof(c, r.prior);
      OnlyReadingBegins(c, After(c, r.prior), r.step);
    }
  }

  /** So under a tier that asks for a proof nobody can ever reject: the invoice has
      no reject row in any run. */
  lemma {:induction false} AttestedTierNeverRejects(c: Config, r: Run, i: Id, d: Routing)
    requires Legal(c, r) && RoutedBy(c, r, i, d) && d.policy.requiredAttestation.Some?
    ensures !HasReject(After(c, r), i)
  {
    assert !HasReject(INITIAL, i);
    hide HasReject, StepRoutedBy;
    if r.Then? {
      var s := After(c, r.prior);
      AttestedTierNeverRejects(c, r.prior, i, d);
      RejectsCarryNoProof(c, r.prior);
      StepAddsNoReject(c, s, r.step, i, d);
    }
  }

  lemma StepAddsNoReject(c: Config, s: State, a: Step, i: Id, d: Routing)
    requires Enabled(c, s, a) && !HasReject(s, i)
    requires StepRoutedBy(c, s, a, i, d) && d.policy.requiredAttestation.Some?
    requires forall call | call in s.deciding && s.deciding[call].verdict == Reject :: s.deciding[call].age == None
    ensures !HasReject(Apply(c, s, a), i)
  {
    hide Enabled, Apply, Committed, HandlerAfter, HasReject;
    var s' := Apply(c, s, a);
    if DecidedOn(c, s, a).Some? {
      var snap := DecidedOn(c, s, a).value;
      DecisionStepCommits(c, s, a);
      RejectProofless(c, s, a);
      NoRejectAdded(c, s, snap, i, d);
      SameRejects(Committed(c, s, snap), s', i);
    } else if a.InHandler? {
      HandlerOnly(c, s, a);
      HandlerFrame(c, s, a.e, a.h);
      SameRejects(s, s', i);
    } else {
      RowsAlone(c, s, a);
      SameRejects(s, s', i);
    }
  }

  lemma RejectProofless(c: Config, s: State, a: Step)
    requires Enabled(c, s, a) && DecidedOn(c, s, a).Some?
    requires forall call | call in s.deciding && s.deciding[call].verdict == Reject :: s.deciding[call].age == None
    ensures DecidedOn(c, s, a).value.verdict == Reject ==> DecidedOn(c, s, a).value.age == None
  {
  }

  lemma NoRejectAdded(c: Config, s: State, snap: Snapshot, i: Id, d: Routing)
    requires !HasReject(s, i) && (snap.verdict == Reject ==> snap.age == None)
    requires snap.invoice == i ==> snap.route == d && d.policy.requiredAttestation.Some?
    ensures !HasReject(Committed(c, s, snap), i)
  {
    DecideTxFootprint(c.conflictAborts, Tables(s), s.queue.now, snap);
  }
}
