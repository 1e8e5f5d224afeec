/** The two endpoints of the proof checkpoint: minting a challenge, and the one call
    that burns it, banks the proof and records the approval. */
module Checkpoint {
  import opened Domain
  import opened Policies
  import opened WorldId
  import opened Approvals

  datatype CheckpointError =
    | UnknownInvoice
    | Closed(status: InvoiceStatus)
    | Unroutable
    | NotListed
    | NonceTaken
    | Declined(reason: AttestError)
    | Undecided(cause: ServiceError)

  class Server {
    const store: Store

    constructor (store: Store)
      ensures this.store == store
    {
      this.store := store;
    }

    ghost predicate Own(org: Id, invoice: Id)
      reads this, store`invoices
    {
      invoice in store.invoices && store.invoices[invoice].org == org
    }

    /** A challenge exactly for somebody the tier lists, on an invoice of their own
        organisation that is still pending; each refusal for its own reason. Tiers
        with equal ceilings may route an invoice either way. */
    method WorldContext(org: Id, member: Id, invoice: Id, nonce: string, expiresAt: int)
      returns (err: Option<CheckpointError>)
      modifies store.desk`challenges
      ensures store.desk.challenges ==
                if err == None then old(store.desk.challenges)[nonce := Challenge(invoice, member, expiresAt, None)]
                else old(store.desk.challenges)
      ensures err == Some(UnknownInvoice) <==> !Own(org, invoice)
      ensures Own(org, invoice) ==>
                var inv := store.invoices[invoice];
                if inv.status != PendingApproval then err == Some(Closed(inv.status))
                else if org !in store.rules || forall p | p in store.rules[org].policies :: !p.active
                then err == Some(Unroutable)
                else exists d :: RoutesTo(inv, store.rules[org].policies, store.rules[org].members, d) &&
                       err == if !IsEligible(d, member) then Some(NotListed)
                              else if nonce in old(store.desk.challenges) then Some(NonceTaken) else None
    {
      if invoice !in store.invoices || store.invoices[invoice].org != org {
        return Some(UnknownInvoice);
      }
      var inv := store.invoices[invoice];
      if inv.status != PendingApproval {
        return Some(Closed(inv.status));
      }
      if org !in store.rules {
        return Some(Unroutable);
      }
      var route := Route(inv, store.rules[org].policies, store.rules[org].members);
      if route.Err? {
        return Some(Unroutable);
      }
      var listed := Eligible(route.value, member);
      if !listed {
        return Some(NotListed);
      }
      assert RoutesTo(inv, store.rules[org].policies, store.rules[org].members, route.value);
      var created := store.desk.CreateChallenge(nonce, invoice, member, expiresAt);
      if !created {
        return Some(NonceTaken);
      }
      return None;
    }

    method Eligible(d: Routing, member: Id) returns (listed: bool)
      ensures listed <==> IsEligible(d, member)
    {
      for i := 0 to |d.eligible|
        invariant forall j | 0 <= j < i :: d.eligible[j].id != member
      {
        if d.eligible[i].id == member {
          return true;
        }
      }
      return false;
    }

    /** Records the proof, then the approval it unblocks, when nothing runs and no
        time passes between the two. A call on an own invoice burns a valid challenge
        whatever follows; it fails exactly when the proof is refused or the decision
        comes to no transaction, each for its reason, and a banked proof stays even
        then. A banked proof is fresh at once, unless the tier's window is negative. */
    method Attest(org: Id, member: Id, invoice: Id, nonce: string, verdict: Verification)
      returns (r: Result<Outcome, CheckpointError>, ghost snap: Option<Snapshot>)
      modifies store`invoices, store`approvals, store.queue`jobs, store.desk`challenges, store.desk`attestations
      ensures r == Err(UnknownInvoice) <==> !old(Own(org, invoice))
      ensures store.desk.challenges ==
                if old(Own(org, invoice)) && !store.desk.demo &&
                   Consumable(old(store.desk.challenges), nonce, store.queue.now)
                then Consumed(old(store.desk.challenges), nonce, store.queue.now) else old(store.desk.challenges)
      ensures old(Own(org, invoice)) ==>
                match old(ProofRefusal(store.desk.demo, store.desk.challenges, store.desk.attestations,
                                       store.queue.now, invoice, member, nonce, verdict))
                case Some(reason) => r == Err(Declined(reason))
                case None =>
                  match old(store.DecisionRefusal(invoice, member))
                  case Some(cause) => r == Err(Undecided(cause))
                  case None => r.Ok?
      ensures store.desk.attestations ==
                if r.Ok? || r.error.Undecided?
                then old(store.desk.attestations)[(Signal(invoice, member), verdict.nullifier) :=
                                                    Attestation(member, store.queue.now)]
                else old(store.desk.attestations)
      ensures r.Err? ==> store.Tables() == old(store.Tables())
      ensures r.Ok? ==>
                && snap.Some? && snap.value.invoice == invoice && snap.value.approver == member
                   && snap.value.verdict == Approve
                && Reads(store.rules, old(store.invoices), store.desk.attestations, store.queue.now, snap.value)
                && (store.Tables(), r.value) == DecideTx(store.conflictAborts, old(store.Tables()),
                   store.queue.now, snap.value)
                && (snap.value.route.policy.attestationMaxAgeSec >= 0 ==>
                      r.value != Refused(AttestationRequired) && r.value != Refused(AttestationStale))
    {
      hide DecideTx, RoutesTo, Signal, Fresh, IsFreshAge;
      if invoice !in store.invoices || store.invoices[invoice].org != org {
        return Err(UnknownInvoice), None;
      }
      var failed := store.desk.RecordAttestation(store.queue.now, invoice, member, nonce, verdict);
      if failed.Some? {
        return Err(Declined(failed.value)), None;
      }
      var out;
      out, snap := store.Decide(invoice, member, Approve);
      if out.Err? {
        return Err(Undecided(out.error)), None;
      }
      JustBankedIsFresh(store.desk.attestations, store.queue.now, invoice, member, verdict.nullifier, snap.value);
      FreshIsNotAskedFor(store.conflictAborts, old(store.Tables()), store.queue.now, snap.value);
      return Ok(out.value), snap;
    }
  }

  /** A proof banked at this instant is inside every window that reaches back to it. */
  lemma JustBankedIsFresh(t: Attestations, now: int, invoice: Id, member: Id, nullifier: string, snap: Snapshot)
    requires (Signal(invoice, member), nullifier) in t
    requires t[(Signal(invoice, member), nullifier)] == Attestation(member, now)
    requires snap.approver == member && snap.invoice == invoice
    requires snap.route.policy.requiredAttestation.Some? ==>
               IsFreshAge(t, now, member, Signal(invoice, member), snap.route.policy.attestationMaxAgeSec, snap.age)
    ensures snap.route.policy.attestationMaxAgeSec >= 0 && snap.route.policy.requiredAttestation.Some? ==>
              snap.age.Some? && snap.age.value <= snap.route.policy.attestationMaxAgeSec
  {
    var maxAge := snap.route.policy.attestationMaxAgeSec;
    if maxAge >= 0 && snap.route.policy.requiredAttestation.Some? {
      var row := (Signal(invoice, member), nullifier);
      assert Fresh(t, row, member, Signal(invoice, member), now - maxAge * 1000);
      FreshAgeWithinWindow(t, now, member, Signal(invoice, member), maxAge, snap.age);
    }
  }

  /** With a proof inside the window no decision is refused for the lack of one. */
  lemma FreshIsNotAskedFor(conflictAborts: bool, b: Books, now: int, snap: Snapshot)
    ensures (snap.route.policy.requiredAttestation.Some? ==>
              snap.age.Some? && snap.age.value <= snap.route.policy.attestationMaxAgeSec) ==>
              var out := DecideTx(conflictAborts, b, now, snap).1;
              out != Refused(AttestationRequired) && out != Refused(AttestationStale)
  {
    hide IsEligible, Approvers;
  }
}
