/** How long a banked proof serves: other steps, and time, may pass between banking
    it and the decision that reads its age. */
module ProofWindow {
  import opened Domain
  import opened Policies
  import opened WorldId
  import opened Approvals
  import opened Protocol

  /** `q` ends in the step that banked this proof for the invoice and member. */
  ghost predicate Banks(c: Config, q: Run, row: (string, string), i: Id, m: Id) {
    && q.Then? && Legal(c, q)
    && row !in After(c, q.prior).desk.attestations
    && ProofFor(After(c, q).desk.attestations, row, i, m)
  }

  ghost predicate ProofFor(t: Attestations, row: (string, string), i: Id, m: Id) {
    row in t && row.0 == Signal(i, m) && t[row].member == m
  }

  /** `r` continues `q` and banks no further proof for the two. */
  ghost predicate LastBanked(c: Config, q: Run, r: Run, i: Id, m: Id) {
    q == r || (r.Then? && LastBanked(c, q, r.prior, i, m) && forall row :: !Banks(c, r, row, i, m))
  }

  /** Every proof bears the time it was banked, which is never ahead of the clock. */
  ghost predicate Dated(s: State) {
    forall row | row in s.desk.attestations :: s.desk.attestations[row].createdAt <= s.queue.now
  }

  /** Proofs are never changed or removed, and a new one bears the time. */
  ghost predicate KeepsProofs(t: Attestations, t': Attestations, now: int) {
    && (forall row | row in t :: row in t' && t'[row] == t[row])
    && (forall row | row in t' && row !in t :: t'[row].createdAt == now)
  }

  lemma DeskKeepsProofs(k: Desk, now: int, d: DeskStep)
    ensures KeepsProofs(k.attestations, DeskAfter(k, now, d).attestations, now)
  {
    hide Signal, Consumed;
  }

  lemma DeskAlone(c: Config, s: State, a: Step)
    requires Enabled(c, s, a)
    ensures !a.AtDesk? ==> Apply(c, s, a).desk == s.desk
    ensures if a.Queue? then s.queue.now <= Apply(c, s, a).queue.now else Apply(c, s, a).queue.now == s.queue.now
  {
    hide Committed, HandlerAfter, DeskAfter;
    match a
    case InHandler(e, h) => HandlerFrame(c, s, e, h);
    case CommitDecision(call) => CommittedFrame(c, s, s.deciding[call]);
    case DecideAtOnce(snap) => CommittedFrame(c, s, snap);
    case _ =>
  }

  lemma StepKeepsProofs(c: Config, s: State, a: Step)
    requires Enabled(c, s, a)
    ensures s.queue.now <= Apply(c, s, a).queue.now
    ensures KeepsProofs(s.desk.attestations, Apply(c, s, a).desk.attestations, Apply(c, s, a).queue.now)
  {
    hide Committed, HandlerAfter, Created, DeskAfter;
    DeskAlone(c, s, a);
    if a.AtDesk? {
      DeskKeepsProofs(s.desk, s.queue.now, a.d);
    }
  }

  lemma {:induction false} RunDated(c: Config, r: Run)
    requires Legal(c, r)
    ensures Dated(After(c, r))
  {
    hide Apply, Enabled;
    if r.Then? {
      RunDated(c, r.prior);
      StepKeepsProofs(c, After(c, r.prior), r.step);
    }
  }

  /** The banked proof stays the newest of its kind until another is banked. */
  lemma {:induction false} StaysNewest(c: Config, q: Run, r: Run, row: (string, string), i: Id, m: Id)
    requires Legal(c, r) && Banks(c, q, row, i, m) && LastBanked(c, q, r, i, m)
    ensures var t, banked := After(c, r).desk.attestations, After(c, q).queue.now;
            && banked <= After(c, r).queue.now
            && ProofFor(t, row, i, m) && t[row].createdAt == banked
            && forall other | ProofFor(t, other, i, m) :: t[other].createdAt <= banked
  {
    hide Apply, Enabled, Signal;
    if q == r {
      RunDated(c, q);
      StepKeepsProofs(c, After(c, q.prior), q.step);
    } else {
      StaysNewest(c, q, r.prior, row, i, m);
      StepKeepsProofs(c, After(c, r.prior), r.step);
      var before, t := After(c, r.prior).desk.attestations, After(c, r).desk.attestations;
      forall other | ProofFor(t, other, i, m) ensures t[other].createdAt <= After(c, q).queue.now {
        assert !Banks(c, r, other, i, m);
        assert ProofFor(before, other, i, m);
      }
    }
  }

  /** The age read where the newest proof was banked at a known time. */
  lemma AgeOfNewest(t: Attestations, now: int, row: (string, string), i: Id, m: Id, maxAgeSec: int, age: Option<int>)
    requires ProofFor(t, row, i, m) && forall other | ProofFor(t, other, i, m) :: t[other].createdAt <= t[row].createdAt
    requires IsFreshAge(t, now, m, Signal(i, m), maxAgeSec, age)
    ensures var elapsed := now - t[row].createdAt;
            age == if elapsed <= maxAgeSec * 1000 then Some(elapsed / 1000) else None
  {
    hide Signal;
    var since := now - maxAgeSec * 1000;
    assert Fresh(t, row, m, Signal(i, m), since) <==> now - t[row].createdAt <= maxAgeSec * 1000;
    forall other | other in t && Fresh(t, other, m, Signal(i, m), since) ensures ProofFor(t, other, i, m) {
    }
  }

  /** The steps of one call that recordings of other calls do not come between: burn,
      verify and bank, each where the one before it leaves something to do. */
  function Recorded(k: Desk, now: int, call: nat, nonce: string, i: Id, m: Id, verdict: Verification): Desk {
    var burned := if Consumable(k.challenges, nonce, now) then DeskAfter(k, now, Burn(call, nonce, i, m)) else k;
    var verified := if call in burned.attesting then DeskAfter(burned, now, Verify(call, verdict)) else burned;
    if call in verified.attesting then DeskAfter(verified, now, Bank(call)) else verified
  }

  /** They burn and bank what the whole call does. */
  lemma StepsRecord(k: Desk, now: int, call: nat, nonce: string, i: Id, m: Id, verdict: Verification)
    requires call !in k.attesting
    ensures var t := Recorded(k, now, call, nonce, i, m, verdict);
            && t.attesting == k.attesting
            && t.challenges == (if Consumable(k.challenges, nonce, now) then Consumed(k.challenges, nonce, now)
                                else k.challenges)
            && t.attestations ==
                 (if ProofRefusal(false, k.challenges, k.attestations, now, i, m, nonce, verdict).None?
                  then k.attestations[(Signal(i, m), verdict.nullifier) := Attestation(m, now)]
                  else k.attestations)
  {
    hide Signal;
  }

  /** What the gate asks before it comes to the proof. */
  ghost predicate OtherwiseOpen(d: Routing, approver: Id, submitter: Id, decided: bool) {
    !(d.policy.blockSelfApproval && approver == submitter) && IsEligible(d, approver) && !decided
  }

  /** A proof serves exactly while no more than the tier's window has passed since it
      was banked: until then a decision reads its age and the gate does not ask for
      another, afterwards it finds none and an approver it would otherwise let
      through is asked again. */
  lemma BankedProofServesItsWindow(c: Config, q: Run, r: Run, row: (string, string), snap: Snapshot, decided: bool)
    requires Legal(c, r) && Banks(c, q, row, snap.invoice, snap.approver)
    requires LastBanked(c, q, r, snap.invoice, snap.approver)
    requires var s := After(c, r); Reads(s.rules, s.invoices, s.desk.attestations, s.queue.now, snap)
    requires snap.verdict == Approve && snap.route.policy.requiredAttestation.Some?
    ensures var elapsed := After(c, r).queue.now - After(c, q).queue.now;
            var served := elapsed <= snap.route.policy.attestationMaxAgeSec * 1000;
            && snap.age == (if served then Some(elapsed / 1000) else None)
            && GateOf(snap.route, snap.approver, snap.submitter, decided, snap.age) != AttestationStale
            && (GateOf(snap.route, snap.approver, snap.submitter, decided, snap.age) == AttestationRequired <==>
                !served && OtherwiseOpen(snap.route, snap.approver, snap.submitter, decided))
  {
    hide Legal, After, Banks, LastBanked, ProofFor, RoutesTo, Signal, IsFreshAge, IsEligible;
    StaysNewest(c, q, r, row, snap.invoice, snap.approver);
    AgeOfNewest(After(c, r).desk.attestations, After(c, r).queue.now, row, snap.invoice, snap.approver,
                snap.route.policy.attestationMaxAgeSec, snap.age);
  }
}
