/** One approver's decision, and the payout job written with the last one. */
module Approvals {
  import opened Domain
  import opened Policies
  import opened WorldId
  import opened Queue

  /** The tables the decision's transaction reads and writes. The unique index on
      (invoice, approver) makes that pair the key of a decision row. */
  datatype Books = Books(invoices: map<Id, Invoice>, approvals: map<(Id, Id), Verdict>, jobs: Table)

  /** An organisation's tiers, roster and treasury wallet. */
  datatype Rules = Rules(policies: seq<Policy>, members: seq<Member>, treasury: Option<string>)

  function PayoutKey(invoice: Id): string {
    "payout:" + invoice
  }

  function NotifyKey(invoice: Id): string {
    "notify:" + invoice
  }

  function InvoiceId(random: seq<nat>): Id {
    NewId("inv", random)
  }

  function NotifyParams(invoice: Id): EnqueueParams {
    EnqueueParams(NotifyKey(invoice), SLACK_NOTIFY, invoice, 5, None)
  }

  /** The first of two texts that is there and not empty, or none. */
  function FirstNonEmpty(a: Option<string>, b: Option<string>): (r: Option<string>)
    ensures r.None? <==> a.GetOr("") == "" && b.GetOr("") == ""
    ensures r.Some? ==> r.value != "" && (r == a || (a.GetOr("") == "" && r == b))
  {
    if a.GetOr("") != "" then a else if b.GetOr("") != "" then b else None
  }

  lemma PayoutKeyInjective(i: Id, j: Id)
    ensures PayoutKey(i) == PayoutKey(j) ==> i == j
    ensures PayoutKey(i) != NotifyKey(j)
  {
    assert PayoutKey(i)[|"payout:"|..] == i && PayoutKey(j)[|"payout:"|..] == j;
    assert PayoutKey(i)[0] == 'p' && NotifyKey(j)[0] == 'n';
  }

  /** The approvers whose approve row is on file for the invoice. */
  function Approvers(approvals: map<(Id, Id), Verdict>, invoice: Id): set<Id> {
    set k | k in approvals && k.0 == invoice && approvals[k] == Approve :: k.1
  }

  /* ------------------------------------------------------------- the closure */

  /** What a decision read before its transaction began. */
  datatype Snapshot = Snapshot(
    invoice: Id,
    submitter: Id,
    approver: Id,
    verdict: Verdict,
    route: Routing,
    age: Option<int>)

  datatype Outcome =
    | Refused(code: GateCode)
    | WasRejected
    | Counted(collected: nat, required: int, fullyApproved: bool)
    | Aborted

  function WithStatus(b: Books, invoice: Id, status: InvoiceStatus): Books {
    if invoice in b.invoices then b.(invoices := b.invoices[invoice := b.invoices[invoice].(status := status)]) else b
  }

  function PayoutParams(invoice: Id): EnqueueParams {
    EnqueueParams(PayoutKey(invoice), PAYOUT, invoice, 0, None)
  }

  /** The transaction closure on whatever the tables hold when it runs. A duplicate
      payout job leaves two readings, and `conflictAborts` selects one: PostgreSQL
      aborts a transaction at a unique violation, so the audit insert that follows
      fails and everything rolls back; with the violation contained, as the code's
      comment has it, the rest commits. */
  function DecideTx(conflictAborts: bool, b: Books, now: int, snap: Snapshot): (Books, Outcome) {
    var row := (snap.invoice, snap.approver);
    var code := GateOf(snap.route, snap.approver, snap.submitter, row in b.approvals, snap.age);
    if code != Allowed then
      (b, Refused(code))
    else
      var recorded := b.(approvals := b.approvals[row := snap.verdict]);
      if snap.verdict == Reject then
        (WithStatus(recorded, snap.invoice, Rejected), WasRejected)
      else
        var collected := |Approvers(recorded.approvals, snap.invoice)|;
        if collected < snap.route.required then
          (recorded, Counted(collected, snap.route.required, false))
        else
          var approved := WithStatus(recorded, snap.invoice, Approved);
          match Enqueued(b.jobs, now, PayoutParams(snap.invoice))
          case Ok(jobs) => (approved.(jobs := jobs), Counted(collected, snap.route.required, true))
          case Err(_) =>
            if conflictAborts then (b, Aborted) else (approved, Counted(collected, snap.route.required, true))
  }

  /** A snapshot that these tables could have produced at this instant. */
  ghost predicate Reads(rules: map<Id, Rules>, invoices: map<Id, Invoice>, attestations: Attestations, now: int,
                        snap: Snapshot) {
    && snap.invoice in invoices
    && var inv := invoices[snap.invoice];
    && inv.status == PendingApproval
    && snap.submitter == inv.submitter
    && (exists org | org in rules :: exists m | m in rules[org].members :: m.id == snap.approver)
    && inv.org in rules
    && RoutesTo(inv, rules[inv.org].policies, rules[inv.org].members, snap.route)
    && (if snap.verdict == Approve && snap.route.policy.requiredAttestation.Some?
        then IsFreshAge(attestations, now, snap.approver, Signal(snap.invoice, snap.approver),
                        snap.route.policy.attestationMaxAgeSec, snap.age)
        else snap.age == None)
  }

  /* ------------------------------------------------------ facts about a commit */

  lemma OnFile(approvals: map<(Id, Id), Verdict>, invoice: Id, approver: Id)
    ensures approver in Approvers(approvals, invoice) <==>
            (invoice, approver) in approvals && approvals[(invoice, approver)] == Approve
  {
  }

  lemma ApproversAfterRow(approvals: map<(Id, Id), Verdict>, invoice: Id, approver: Id)
    requires (invoice, approver) !in approvals
    ensures Approvers(approvals[(invoice, approver) := Approve], invoice) == Approvers(approvals,
              invoice) + {approver}
    ensures approver !in Approvers(approvals, invoice)
  {
    var after := approvals[(invoice, approver) := Approve];
    forall a ensures a in Approvers(after, invoice) <==> a in Approvers(approvals, invoice) + {approver} {
      OnFile(approvals, invoice, a);
      OnFile(after, invoice, a);
    }
    OnFile(approvals, invoice, approver);
  }

  lemma ApproversElsewhere(approvals: map<(Id, Id), Verdict>, row: (Id, Id), v: Verdict, invoice: Id)
    requires row !in approvals
    requires row.0 != invoice || v == Reject
    ensures Approvers(approvals[row := v], invoice) == Approvers(approvals, invoice)
  {
    forall a ensures a in Approvers(approvals[row := v], invoice) <==> a in Approvers(approvals, invoice) {
      OnFile(approvals, invoice, a);
      OnFile(approvals[row := v], invoice, a);
    }
  }

  /** What a decision can change: at most its own row, its invoice's status, and
      its invoice's payout job, and each only in one way. */
  lemma DecideTxFootprint(conflictAborts: bool, b: Books, now: int, snap: Snapshot)
    ensures var b', row := DecideTx(conflictAborts, b, now, snap).0, (snap.invoice, snap.approver);
            && (b'.approvals == b.approvals
                || (row !in b.approvals && b'.approvals == b.approvals[row := snap.verdict]))
            && (b'.invoices == b.invoices || b'.invoices == WithStatus(b, snap.invoice, Approved).invoices
                || b'.invoices == WithStatus(b, snap.invoice, Rejected).invoices)
            && (b'.jobs == b.jobs || (PayoutKey(snap.invoice) !in b.jobs &&
                b'.jobs == b.jobs[PayoutKey(snap.invoice) := NewRow(now, PayoutParams(snap.invoice))]))
  {
    hide IsEligible, Approvers, PayoutKey, NewRow;
  }

  /* --------------------------------------------------------------- the store */

  datatype ServiceError = NotFound | NotPending(status: InvoiceStatus) | NoRoute | Conflict

  class Store {
    var rules: map<Id, Rules>
    var invoices: map<Id, Invoice>
    var approvals: map<(Id, Id), Verdict>
    const desk: ProofDesk
    const queue: JobTable
    const conflictAborts: bool

    constructor (desk: ProofDesk, queue: JobTable, conflictAborts: bool)
      ensures this.desk == desk && this.queue == queue && this.conflictAborts == conflictAborts
      ensures rules == map[] && invoices == map[] && approvals == map[]
    {
      this.desk := desk;
      this.queue := queue;
      this.conflictAborts := conflictAborts;
      rules, invoices, approvals := map[], map[], map[];
    }

    function Tables(): Books
      reads this`invoices, this`approvals, queue`jobs
    {
      Books(invoices, approvals, queue.jobs)
    }

    method CountApprovals(invoice: Id) returns (n: nat)
      ensures n == |Approvers(approvals, invoice)|
    {
      n := 0;
      var rest := approvals.Keys;
      ghost var seen: set<Id> := {};
      while rest != {}
        invariant rest <= approvals.Keys
        invariant seen == set k | k in approvals && k !in rest && k.0 == invoice && approvals[k] == Approve :: k.1
        invariant n == |seen|
      {
        var k :| k in rest;
        rest := rest - {k};
        if k.0 == invoice && approvals[k] == Approve {
          assert k.1 !in seen;
          n := n + 1;
          seen := seen + {k.1};
        }
      }
      assert seen == Approvers(approvals, invoice);
    }

    method SetInvoiceStatus(invoice: Id, status: InvoiceStatus)
      modifies this`invoices
      ensures Tables() == WithStatus(old(Tables()), invoice, status)
    {
      if invoice in invoices {
        invoices := invoices[invoice := invoices[invoice].(status := status)];
      }
    }

    /** The closure, statement by statement; a failing statement restores the
        tables as they were at BEGIN. */
    method DecideInTx(snap: Snapshot) returns (out: Outcome)
      modifies this`invoices, this`approvals, queue`jobs
      ensures (Tables(), out) == DecideTx(conflictAborts, old(Tables()), queue.now, snap)
    {
      var begin := Tables();
      var row := (snap.invoice, snap.approver);
      var decided := row in approvals;
      var code := Gate(snap.route, snap.approver, snap.submitter, decided, snap.age);
      if code != Allowed {
        return Refused(code);
      }

      approvals := approvals[row := snap.verdict];

      if snap.verdict == Reject {
        SetInvoiceStatus(snap.invoice, Rejected);
        return WasRejected;
      }

      var collected := CountApprovals(snap.invoice);
      var fullyApproved := collected >= snap.route.required;
      if fullyApproved {
        SetInvoiceStatus(snap.invoice, Approved);
        var err := queue.EnqueueTx(PayoutParams(snap.invoice));
        if err.Some? && conflictAborts {
          invoices, approvals, queue.jobs := begin.invoices, begin.approvals, begin.jobs;
          return Aborted;
        }
      }
      return Counted(collected, snap.route.required, fullyApproved);
    }

    ghost predicate Seated(m: Member)
      reads this`rules
    {
      exists org | org in rules :: m in rules[org].members
    }

    ghost predicate IsMember(id: Id)
      reads this`rules
    {
      exists org | org in rules :: exists m | m in rules[org].members :: m.id == id
    }

    method FindMember(id: Id) returns (found: Option<Member>)
      ensures found.Some? <==> IsMember(id)
      ensures found.Some? ==> found.value.id == id && Seated(found.value)
    {
      if exists org | org in rules :: exists m | m in rules[org].members :: m.id == id {
        var org :| org in rules && exists m | m in rules[org].members :: m.id == id;
        var m :| m in rules[org].members && m.id == id;
        return Some(m);
      }
      return None;
    }

    /** Routes first, then writes the row and its notification in one transaction,
        which either commits both or neither. The payee, where none
        or an empty one is given, is the submitter's own wallet. */
    method CreateInvoice(random: seq<nat>, org: Id, submitter: Id, amount: int, payee: Option<string>)
      returns (r: Result<Id, ServiceError>, ghost route: Option<Routing>)
      modifies this`invoices, queue`jobs
      ensures r.Err? ==> Tables() == old(Tables())
      ensures r.Ok? ==>
                && r.value == InvoiceId(random) && r.value !in old(invoices) && r.value in invoices
                && var inv := invoices[r.value];
                   && inv.org == org && inv.submitter == submitter && inv.amount == amount
                      && inv.status == PendingApproval
                   && (exists m: Member | Seated(m) && m.id == submitter ::
                         inv.payee == FirstNonEmpty(payee, m.walletAddress))
                   && org in rules && route.Some?
                      && RoutesTo(inv, rules[org].policies, rules[org].members, route.value)
                   && invoices == old(invoices)[r.value := inv]
                   && NotifyKey(r.value) !in old(queue.jobs)
                   && queue.jobs == old(queue.jobs)[NotifyKey(r.value) := NewRow(queue.now, NotifyParams(r.value))]
                   && NewlyQueued(queue.jobs[NotifyKey(r.value)], "slack_notify", r.value, 5, queue.now)
      ensures r.Ok? <==>
                && IsMember(submitter) && org in rules && (exists p | p in rules[org].policies :: p.active)
                && InvoiceId(random) !in old(invoices) && NotifyKey(InvoiceId(random)) !in old(queue.jobs)
    {
      route := None;
      var found := FindMember(submitter);
      if found.None? {
        return Err(NotFound), None;
      }
      var id := InvoiceId(random);
      var payTo := FirstNonEmpty(payee, found.value.walletAddress);
      var inv := Invoice(org, submitter, amount, payTo, PendingApproval);

      if org !in rules {
        return Err(NoRoute), None;
      }
      var routed := Route(inv, rules[org].policies, rules[org].members);
      if routed.Err? {
        return Err(NoRoute), None;
      }

      var begin := Tables();
      if id in invoices {
        return Err(Conflict), None;
      }
      invoices := invoices[id := inv];
      var err := queue.EnqueueTx(NotifyParams(id));
      if err.Some? {
        invoices := begin.invoices;
        return Err(Conflict), None;
      }
      return Ok(id), Some(routed.value);
    }

    /** Why a decision comes to no transaction, or none when it does. */
    ghost function DecisionRefusal(invoice: Id, approver: Id): Option<ServiceError>
      reads this`invoices, this`rules
    {
      if invoice !in invoices then Some(NotFound)
      else
        var inv := invoices[invoice];
        if inv.status != PendingApproval then Some(NotPending(inv.status))
        else if !IsMember(approver) then Some(NotFound)
        else if inv.org !in rules || forall p | p in rules[inv.org].policies :: !p.active then Some(NoRoute)
        else None
    }

    /** The whole call when nothing runs between its reads and its transaction. */
    method Decide(invoice: Id, approver: Id, verdict: Verdict)
      returns (r: Result<Outcome, ServiceError>, ghost snap: Option<Snapshot>)
      modifies this`invoices, this`approvals, queue`jobs
      ensures r.Err? ==> Tables() == old(Tables())
      ensures r.Ok? ==>
                && snap.Some? && snap.value.invoice == invoice && snap.value.approver == approver
                   && snap.value.verdict == verdict
                && Reads(rules, old(invoices), desk.attestations, queue.now, snap.value)
                && (Tables(), r.value) == DecideTx(conflictAborts, old(Tables()), queue.now, snap.value)
      ensures match old(DecisionRefusal(invoice, approver))
              case Some(error) => r == Err(error)
              case None => r.Ok?
    {
      snap := None;
      if invoice !in invoices {
        return Err(NotFound), None;
      }
      var inv := invoices[invoice];
      if inv.status != PendingApproval {
        return Err(NotPending(inv.status)), None;
      }
      var known := FindMember(approver);
      if known.None? {
        return Err(NotFound), None;
      }
      if inv.org !in rules {
        return Err(NoRoute), None;
      }
      var route := Route(inv, rules[inv.org].policies, rules[inv.org].members);
      if route.Err? {
        return Err(NoRoute), None;
      }
      var d := route.value;

      var age := None;
      if verdict == Approve && d.policy.requiredAttestation.Some? {
        age := FreshAttestationAge(desk.attestations, queue.now, approver, Signal(invoice, approver),
                                   d.policy.attestationMaxAgeSec);
      }

      var taken := Snapshot(invoice, inv.submitter, approver, verdict, d, age);
      var out := DecideInTx(taken);
      return Ok(out), Some(taken);
    }
  }
}
