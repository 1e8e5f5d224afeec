/** Pending invoices can be resolved: whatever has happened, a pending invoice can
    still be approved by further proofs and decisions that come in time, exactly when
    its routing lists anybody and its tier's proof window, if it has one, is not
    negative; and what is approved this way can be paid. */
module Resolution {
  import opened Domain
  import opened Policies
  import opened WorldId
  import opened Approvals
  import opened Protocol
  import opened Payments
  import opened Decisions
  import opened Progress
  import opened Entitlement
  import ProofWindow
  import Delivery
  import Q = Queue

  /** Somebody to ask, and a window in which a proof can be fresh. */
  ghost predicate Answerable(d: Routing) {
    d.eligible != [] && (d.policy.requiredAttestation.Some? ==> d.policy.attestationMaxAgeSec >= 0)
  }

  /** `next` continues `r`, with every decision in time and every one on the invoice
      routed by `d`. */
  ghost predicate Onward(c: Config, r: Run, next: Run, i: Id, d: Routing) {
    Legal(c, r) && Legal(c, next) && Within(r, next) && Punctual(c, next) && RoutedBy(c, next, i, d)
  }

  /** The invoice is pending, and a decision read now is routed by `d`. */
  ghost predicate Asking(s: State, i: Id, d: Routing) {
    && i in s.invoices && s.invoices[i].status == PendingApproval && s.invoices[i].org in s.rules
    && var inv := s.invoices[i]; var rules := s.rules[inv.org];
       RoutesTo(inv, rules.policies, rules.members, d) && DistinctIds(rules.members)
  }

  lemma OnwardThrough(c: Config, q: Run, r: Run, t: Run, i: Id, d: Routing)
    requires Onward(c, q, r, i, d) && Onward(c, r, t, i, d)
    ensures Onward(c, q, t, i, d)
  {
    hide Legal, Punctual, RoutedBy;
    Delivery.WithinThrough(q, r, t);
  }

  /* ------------------------------------------------------- fresh names and calls */

  lemma {:induction false} FreshNumber(used: set<nat>) returns (n: nat)
    ensures forall x | x in used :: x < n
  {
    if used == {} {
      n := 0;
    } else {
      var x :| x in used;
      var m := FreshNumber(used - {x});
      n := if x < m then m else x + 1;
      assert forall y | y in used :: y == x || y in used - {x};
    }
  }

  lemma FreshText(used: set<string>) returns (t: string)
    ensures t !in used
  {
    var lengths: set<nat> := set x | x in used :: |x|;
    var n := FreshNumber(lengths);
    t := seq(n, _ => '0');
    assert t in used ==> |t| in lengths;
  }

  /* --------------------------------------------------------------- the checkpoint */

  lemma DeskStepOn(c: Config, r: Run, x: DeskStep, i: Id, d: Routing) returns (next: Run)
    requires Onward(c, r, r, i, d) && DeskEnabled(c, After(c, r), x)
    ensures Onward(c, r, next, i, d)
    ensures After(c, next) == After(c, r).(desk := DeskAfter(After(c, r).desk, After(c, r).queue.now, x))
  {
    hide DeskEnabled, DeskAfter;
    next := Then(r, AtDesk(x));
    assert Legal(c, next);
  }

  lemma Onwards(c: Config, r: Run, next: Run, i: Id, d: Routing)
    requires Onward(c, r, next, i, d)
    ensures Onward(c, next, next, i, d)
  {
  }

  /** A challenge minted for the approver and burned by a call of theirs. */
  lemma Challenged(c: Config, r: Run, i: Id, d: Routing, m: Id) returns (next: Run, call: nat)
    requires Onward(c, r, r, i, d) && Asking(After(c, r), i, d) && IsEligible(d, m)
    ensures Onward(c, r, next, i, d) && After(c, next) == After(c, r).(desk := After(c, next).desk)
    ensures call in After(c, next).desk.attesting && After(c, next).desk.attesting[call] == Burned(i, m)
    ensures After(c, next).desk.attestations == After(c, r).desk.attestations
  {
    hide Apply, Enabled, Punctual, RoutedBy, RoutesTo, IsEligible, DistinctIds;
    var s := After(c, r);
    call := FreshNumber(s.desk.attesting.Keys);
    if c.worldDemo {
      next := DeskStepOn(c, r, SkipBurn(call, i, m), i, d);
    } else {
      var nonce := FreshText(s.desk.challenges.Keys);
      var minted := DeskStepOn(c, r, MintChallenge(nonce, i, m, d, s.queue.now + 1), i, d);
      Onwards(c, r, minted, i, d);
      next := DeskStepOn(c, minted, Burn(call, nonce, i, m), i, d);
      OnwardThrough(c, r, minted, next, i, d);
    }
  }

  /** A proof banked this instant. */
  lemma Proved(c: Config, r: Run, i: Id, d: Routing, m: Id) returns (next: Run, row: (string, string))
    requires Onward(c, r, r, i, d) && Asking(After(c, r), i, d) && IsEligible(d, m)
    ensures Onward(c, r, next, i, d) && After(c, next) == After(c, r).(desk := After(c, next).desk)
    ensures var t := After(c, next).desk.attestations;
            ProofWindow.ProofFor(t, row, i, m) && t[row].createdAt == After(c, r).queue.now
  {
    hide Apply, Enabled, Punctual, RoutedBy, Asking, IsEligible, Signal;
    var burned, call := Challenged(c, r, i, d, m);
    var banked := After(c, r).desk.attestations;
    var nullifier := FreshText(set x | x in banked && x.0 == Signal(i, m) :: x.1);
    row := (Signal(i, m), nullifier);
    assert row !in banked;
    Onwards(c, r, burned, i, d);
    var verified := DeskStepOn(c, burned, Verify(call, Verification(true, nullifier)), i, d);
    Onwards(c, burned, verified, i, d);
    next := DeskStepOn(c, verified, Bank(call), i, d);
    OnwardThrough(c, burned, verified, next, i, d);
    OnwardThrough(c, r, burned, next, i, d);
  }

  /** An age the gate accepts, read at once. */
  lemma FreshProof(c: Config, r: Run, i: Id, d: Routing, m: Id) returns (next: Run, age: Option<int>)
    requires Onward(c, r, r, i, d) && Asking(After(c, r), i, d) && IsEligible(d, m) && Answerable(d)
    ensures Onward(c, r, next, i, d) && After(c, next) == After(c, r).(desk := After(c, next).desk)
    ensures var s := After(c, next); var maxAge := d.policy.attestationMaxAgeSec;
            if d.policy.requiredAttestation.Some?
            then age == Some(0) && 0 <= maxAge
                 && IsFreshAge(s.desk.attestations, s.queue.now, m, Signal(i, m), maxAge, age)
            else age == None
  {
    hide Apply, Enabled, Punctual, RoutedBy, Asking, IsEligible, Signal;
    if d.policy.requiredAttestation.None? {
      return r, None;
    }
    var row;
    next, row := Proved(c, r, i, d, m);
    age := Some(0);
    ProofWindow.RunDated(c, next);
    ProofIsFresh(After(c, next), i, m, row, d.policy.attestationMaxAgeSec);
  }

  lemma ProofIsFresh(s: State, i: Id, m: Id, row: (string, string), maxAge: int)
    requires ProofWindow.Dated(s) && ProofWindow.ProofFor(s.desk.attestations, row, i, m) && maxAge >= 0
    requires s.desk.attestations[row].createdAt == s.queue.now
    ensures IsFreshAge(s.desk.attestations, s.queue.now, m, Signal(i, m), maxAge, Some(0))
  {
    hide Signal;
    assert Fresh(s.desk.attestations, row, m, Signal(i, m), s.queue.now - maxAge * 1000);
  }

  /* -------------------------------------------------------------- one more approval */

  /** What stays the same while approvals come in. */
  ghost predicate SameCase(s: State, t: State, i: Id) {
    && i in s.invoices && i in t.invoices
    && t.invoices[i] == s.invoices[i].(status := t.invoices[i].status)
    && t.rules == s.rules && t.ledger == s.ledger
  }

  /** The decision to be read for somebody the routing lists. */
  lemma CanRead(s: State, i: Id, d: Routing, m: Member, age: Option<int>)
    requires Asking(s, i, d) && m in d.eligible
    requires var maxAge := d.policy.attestationMaxAgeSec;
             if d.policy.requiredAttestation.Some?
             then IsFreshAge(s.desk.attestations, s.queue.now, m.id, Signal(i, m.id), maxAge, age)
             else age == None
    ensures ReadsIn(s, Snapshot(i, s.invoices[i].submitter, m.id, Approve, d, age))
  {
    var org := s.invoices[i].org;
    EligibleMembers(s.rules[org].members, d.policy, s.invoices[i].submitter, m);
    hide RoutesTo, IsFreshAge, Signal;
    assert m in s.rules[org].members;
  }

  lemma DecideOn(c: Config, r: Run, snap: Snapshot, d: Routing) returns (next: Run)
    requires Onward(c, r, r, snap.invoice, d) && ReadsIn(After(c, r), snap) && snap.route == d
    ensures Onward(c, r, next, snap.invoice, d) && After(c, next) == Committed(c, After(c, r), snap)
  {
    hide Committed, GateAllows, Approvers;
    next := Then(r, DecideAtOnce(snap));
    assert Legal(c, next);
  }

  /** What an approval that the gate lets through makes of a pending invoice. */
  lemma ApprovalTells(c: Config, s: State, snap: Snapshot)
    requires GateAllows(s, snap) && snap.verdict == Approve && snap.invoice in s.invoices
    requires PayoutKey(snap.invoice) !in s.queue.jobs
    ensures var t := Committed(c, s, snap);
            && SameCase(s, t, snap.invoice)
            && (t.invoices[snap.invoice].status == Approved && s.invoices[snap.invoice].status != Approved ==>
                  Delivery.Open(t.queue, PayoutKey(snap.invoice)))
  {
    hide Committed, GateAllows, PayoutKey;
    ApproveCommit(c, s, snap);
    CommittedFrame(c, s, snap);
    CommittedRows(c, s, snap);
  }

  lemma OneMoreApproval(c: Config, r: Run, i: Id, d: Routing) returns (next: Run)
    requires Onward(c, r, r, i, d) && Asking(After(c, r), i, d) && Answerable(d)
    ensures Onward(c, r, next, i, d) && SameCase(After(c, r), After(c, next), i)
    ensures var s, t := After(c, r), After(c, next);
            && |Approvers(t.approvals, i)| == |Approvers(s.approvals, i)| + 1 <= d.required
            && (if |Approvers(t.approvals, i)| < d.required then t.invoices[i].status == PendingApproval
                else t.invoices[i].status == Approved && Delivery.Open(t.queue, PayoutKey(i)))
  {
    hide Apply, Enabled, RoutesTo, IsFreshAge, Signal, PayoutKey, Approvers, Committed, GateOf;
    var s := After(c, r);
    var rules := s.rules[s.invoices[i].org];
    PendingHasSomebodyToAsk(c, r, i, rules, d);
    var m :| m in d.eligible && (i, m.id) !in s.approvals &&
      forall age: Option<int> |
        d.policy.requiredAttestation.Some? ==> age.Some? && age.value <= d.policy.attestationMaxAgeSec ::
        GateOf(d, m.id, s.invoices[i].submitter, false, age) == Allowed;
    ListedIsEligible(d, m);
    var proved, age := FreshProof(c, r, i, d, m.id);
    var snap := Snapshot(i, s.invoices[i].submitter, m.id, Approve, d, age);
    CanRead(After(c, proved), i, d, m, age);
    Onwards(c, r, proved, i, d);
    next := DecideOn(c, proved, snap, d);
    OnwardThrough(c, r, proved, next, i, d);
    RequiresOne(s, i, d);
    ApprovalsCountDown(c, proved, snap, d);
    NoDuplicatePayout(c, proved, snap);
    ApprovalTells(c, After(c, proved), snap);
  }

  lemma ListedIsEligible(d: Routing, m: Member)
    requires m in d.eligible
    ensures IsEligible(d, m.id)
  {
  }

  lemma RequiresOne(s: State, i: Id, d: Routing)
    requires Asking(s, i, d)
    ensures d.required >= 1
  {
  }

  /** Asking one listed approver after another approves the invoice. */
  lemma {:induction false} CanBeApproved(c: Config, r: Run, i: Id, d: Routing) returns (next: Run)
    requires Onward(c, r, r, i, d) && Asking(After(c, r), i, d) && Answerable(d)
    ensures Onward(c, r, next, i, d) && SameCase(After(c, r), After(c, next), i)
    ensures After(c, next).invoices[i].status == Approved && Delivery.Open(After(c, next).queue, PayoutKey(i))
    decreases d.required - |Approvers(After(c, r).approvals, i)|
  {
    hide Apply, Enabled, RoutesTo, PayoutKey, Approvers, Answerable, DistinctIds;
    next := OneMoreApproval(c, r, i, d);
    if After(c, next).invoices[i].status == PendingApproval {
      var asked := next;
      StillAsking(After(c, r), After(c, asked), i, d);
      Onwards(c, r, asked, i, d);
      next := CanBeApproved(c, asked, i, d);
      OnwardThrough(c, r, asked, next, i, d);
    }
  }

  lemma StillAsking(s: State, t: State, i: Id, d: Routing)
    requires Asking(s, i, d) && SameCase(s, t, i) && t.invoices[i].status == PendingApproval
    ensures Asking(t, i, d)
  {
    assert t.invoices[i] == s.invoices[i];
  }

  /* ----------------------------------------------------------- and only then */

  /** Behind a decision row on the invoice is a decision the gate let through, read
      in that run and routed by `d`. */
  ghost predicate RowRead(c: Config, r: Run, row: (Id, Id), verdict: Verdict, d: Routing) {
    exists snap :: WasRead(c, r, snap) && Opened(snap, row, verdict) && snap.route == d
  }

  lemma {:induction false} RowsAreRead(c: Config, r: Run, row: (Id, Id), d: Routing)
    requires Legal(c, r) && RoutedBy(c, r, row.0, d) && row in After(c, r).approvals
    ensures RowRead(c, r, row, After(c, r).approvals[row], d)
  {
    hide Apply, Enabled, Opened, ReadsIn, WasRead;
    var s := After(c, r.prior);
    if row in s.approvals {
      RowsAreRead(c, r.prior, row, d);
      StepExtends(c, s, r.step);
    } else {
      NewRow(c, s, r.step, row);
      DecidedWasRead(c, r.prior, r.step);
      OpenedParts(DecidedOn(c, s, r.step).value, row, After(c, r).approvals[row]);
    }
    var snap :| WasRead(c, r.prior, snap) && Opened(snap, row, After(c, r).approvals[row]) && snap.route == d;
    WasReadStays(c, r, snap);
  }

  lemma OpenedParts(snap: Snapshot, row: (Id, Id), verdict: Verdict)
    requires Opened(snap, row, verdict)
    ensures snap.invoice == row.0
  {
  }

  /** An approval the gate let through answers for its routing: proofs are never dated
      ahead of the clock, so none is fresh in a negative window. */
  lemma ReadAnswers(s: State, snap: Snapshot, row: (Id, Id), verdict: Verdict)
    requires ProofWindow.Dated(s) && ReadsIn(s, snap) && Opened(snap, row, verdict)
    ensures Answerable(snap.route)
  {
    hide Signal, RoutesTo;
    assert IsEligible(snap.route, snap.approver);
  }

  lemma ApprovedWasAnswerable(c: Config, r: Run, i: Id, d: Routing)
    requires Legal(c, r) && Punctual(c, r) && RoutedBy(c, r, i, d) && d.required >= 1
    requires i in After(c, r).invoices && After(c, r).invoices[i].status in {Approved, Paid}
    ensures Answerable(d)
  {
    hide Apply, Enabled, Opened, Answerable, ReadsIn, Approvers;
    QuorumExact(c, r, i, d);
    var s := After(c, r);
    var a :| a in Approvers(s.approvals, i);
    OnFile(s.approvals, i, a);
    RowsAreRead(c, r, (i, a), d);
    var snap :| WasRead(c, r, snap) && Opened(snap, (i, a), Approve) && snap.route == d;
    var p :| Within(p, r) && Legal(c, p) && ReadsIn(After(c, p), snap);
    ProofWindow.RunDated(c, p);
    ReadAnswers(After(c, p), snap, (i, a), Approve);
  }

  /* ------------------------------------------------------------ main results */

  /** From every state reached with decisions in time, a pending invoice can be
      approved, with decisions in time and by the same routing, exactly when that
      routing is answerable. */
  lemma CanBeApprovedIff(c: Config, r: Run, i: Id, d: Routing)
    requires Legal(c, r) && Punctual(c, r) && RoutedBy(c, r, i, d) && Asking(After(c, r), i, d)
    ensures (exists next :: Onward(c, r, next, i, d) && i in After(c, next).invoices &&
                            After(c, next).invoices[i].status == Approved) <==> Answerable(d)
  {
    hide Apply, Enabled, Answerable, RoutesTo;
    RequiresOne(After(c, r), i, d);
    if Answerable(d) {
      assert Within(r, r);
      var next := CanBeApproved(c, r, i, d);
    }
    forall next | Onward(c, r, next, i, d) && i in After(c, next).invoices &&
                  After(c, next).invoices[i].status == Approved
      ensures Answerable(d) {
      ApprovedWasAnswerable(c, next, i, d);
    }
  }

  lemma {:induction false} WorkKeepsCourse(c: Config, r: Run, next: Run, i: Id, d: Routing)
    requires Legal(c, r) && Legal(c, next) && Delivery.OnlyWork(r, next) && Punctual(c, r) && RoutedBy(c, r, i, d)
    ensures Punctual(c, next) && RoutedBy(c, next, i, d)
  {
    hide Apply, Enabled, InTime;
    if next != r {
      WorkKeepsCourse(c, r, next.prior, i, d);
    }
  }

  /** And with a payee and a treasury it can go on to be paid and marked, exactly
      when it can be approved. */
  lemma CanBePaidIff(c: Config, r: Run, i: Id, d: Routing)
    requires Legal(c, r) && Punctual(c, r) && RoutedBy(c, r, i, d) && Asking(After(c, r), i, d)
    requires c.pools.concurrency >= 1 && Delivery.Funded(After(c, r), After(c, r).invoices[i].org)
    requires After(c, r).invoices[i].payee.Some? && After(c, r).invoices[i].payee.value != ""
    ensures (exists next :: Onward(c, r, next, i, d) && Delivery.Completed(c, After(c, next), i)) <==> Answerable(d)
  {
    hide Apply, Enabled, Answerable, RoutesTo, PayoutKey, Delivery.OnLease;
    RequiresOne(After(c, r), i, d);
    if Answerable(d) {
      assert Within(r, r);
      var approved := CanBeApproved(c, r, i, d);
      var paid := Delivery.OpenPayoutCanComplete(c, approved, i);
      WorkKeepsCourse(c, approved, paid, i, d);
      OnwardThrough(c, r, approved, paid, i, d);
    }
    forall next | Onward(c, r, next, i, d) && Delivery.Completed(c, After(c, next), i) ensures Answerable(d) {
      ApprovedWasAnswerable(c, next, i, d);
    }
  }
}
