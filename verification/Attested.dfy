/** Approvals under an attested tier rest on burned challenges, one each, however
    the consume, verify and insert statements of concurrent checks interleave. */
module Attested {
  import opened Domain
  import opened WorldId
  import opened Approvals
  import opened Protocol
  import Payments
  import Pools

  ghost predicate Backed(t: Challenges, invoice: Id, member: Id) {
    exists nonce | nonce in t :: BurnedFor(t, nonce, invoice, member)
  }

  /** The row's signal names an invoice and a member with a burned challenge. */
  ghost predicate BackedProof(t: Challenges, signal: string, member: Id) {
    exists i: Id :: signal == Signal(i, member) && ColonFree(i) && Backed(t, i, member)
  }

  ghost predicate DeskSound(k: Desk) {
    && (forall nonce | nonce in k.challenges :: ColonFree(k.challenges[nonce].invoice))
    && (forall call | call in k.attesting :: Backed(k.challenges, k.attesting[call].invoice, k.attesting[call].member)
                                            && ColonFree(k.attesting[call].invoice))
    && (forall row | row in k.attestations :: BackedProof(k.challenges, row.0, k.attestations[row].member))
  }

  ghost predicate SnapBacked(s: State, snap: Snapshot) {
    snap.age.Some? ==> Backed(s.desk.challenges, snap.invoice, snap.approver)
  }

  ghost predicate Vouched(s: State) {
    && (forall i | i in s.invoices :: ColonFree(i))
    && DeskSound(s.desk)
    && (forall call | call in s.deciding :: SnapBacked(s, s.deciding[call]))
  }

  /* ---------------------------------------------------------- one step each */

  /** A burned challenge is never touched again. */
  lemma BurnedStays(c: Config, s: State, d: DeskStep, invoice: Id, member: Id)
    requires DeskEnabled(c, s, d) && Backed(s.desk.challenges, invoice, member)
    ensures Backed(DeskAfter(s.desk, s.queue.now, d).challenges, invoice, member)
  {
    var nonce :| nonce in s.desk.challenges && BurnedFor(s.desk.challenges, nonce, invoice, member);
    var t := DeskAfter(s.desk, s.queue.now, d).challenges;
    assert nonce in t && BurnedFor(t, nonce, invoice, member);
  }

  lemma ProofStays(c: Config, s: State, d: DeskStep, signal: string, member: Id)
    requires DeskEnabled(c, s, d) && BackedProof(s.desk.challenges, signal, member)
    ensures BackedProof(DeskAfter(s.desk, s.queue.now, d).challenges, signal, member)
  {
    var i: Id :| signal == Signal(i, member) && ColonFree(i) && Backed(s.desk.challenges, i, member);
    BurnedStays(c, s, d, i, member);
  }

  lemma BurnBacks(c: Config, s: State, d: DeskStep)
    requires DeskEnabled(c, s, d) && d.Burn? && DeskSound(s.desk)
    ensures var k := DeskAfter(s.desk, s.queue.now, d);
            d.call in k.attesting ==>
              Backed(k.challenges, k.attesting[d.call].invoice, k.attesting[d.call].member)
                && ColonFree(k.attesting[d.call].invoice)
  {
    var k := DeskAfter(s.desk, s.queue.now, d);
    if d.call in k.attesting {
      assert d.nonce in k.challenges && BurnedFor(k.challenges, d.nonce, d.invoice, d.member);
    }
  }

  lemma DeskStepSound(c: Config, s: State, d: DeskStep)
    requires !c.worldDemo && Vouched(s) && DeskEnabled(c, s, d)
    ensures DeskSound(DeskAfter(s.desk, s.queue.now, d))
  {
    hide DeskAfter, Backed, BackedProof, ColonFree;
    var k := DeskAfter(s.desk, s.queue.now, d);
    forall call | call in k.attesting
      ensures Backed(k.challenges, k.attesting[call].invoice, k.attesting[call].member)
      ensures ColonFree(k.attesting[call].invoice) {
      AttestingBacked(c, s, d, call);
    }
    forall row | row in k.attestations ensures BackedProof(k.challenges, row.0, k.attestations[row].member) {
      ProofBacked(c, s, d, row);
    }
    forall nonce | nonce in k.challenges ensures ColonFree(k.challenges[nonce].invoice) {
      ChallengeColonFree(c, s, d, nonce);
    }
  }

  lemma ChallengeColonFree(c: Config, s: State, d: DeskStep, nonce: string)
    requires Vouched(s) && DeskEnabled(c, s, d) && nonce in DeskAfter(s.desk, s.queue.now, d).challenges
    ensures ColonFree(DeskAfter(s.desk, s.queue.now, d).challenges[nonce].invoice)
  {
    hide ColonFree, Backed, BackedProof;
  }

  lemma AttestingBacked(c: Config, s: State, d: DeskStep, call: nat)
    requires !c.worldDemo && DeskSound(s.desk) && DeskEnabled(c, s, d)
    requires call in DeskAfter(s.desk, s.queue.now, d).attesting
    ensures var k := DeskAfter(s.desk, s.queue.now, d); var x := k.attesting[call];
            Backed(k.challenges, x.invoice, x.member) && ColonFree(x.invoice)
  {
    hide Backed, BackedProof, ColonFree, Signal;
    var x := DeskAfter(s.desk, s.queue.now, d).attesting[call];
    if d.Burn? && call == d.call {
      BurnBacks(c, s, d);
    } else {
      BurnedStays(c, s, d, x.invoice, x.member);
    }
  }

  lemma ProofBacked(c: Config, s: State, d: DeskStep, row: (string, string))
    requires DeskSound(s.desk) && DeskEnabled(c, s, d) && row in DeskAfter(s.desk, s.queue.now, d).attestations
    ensures var k := DeskAfter(s.desk, s.queue.now, d); BackedProof(k.challenges, row.0, k.attestations[row].member)
  {
    hide Backed, ColonFree, Signal;
    var k := DeskAfter(s.desk, s.queue.now, d);
    if row in s.desk.attestations {
      ProofStays(c, s, d, row.0, k.attestations[row].member);
    } else {
      var x := s.desk.attesting[d.call];
      BurnedStays(c, s, d, x.invoice, x.member);
      assert row.0 == Signal(x.invoice, x.member);
    }
  }

  /** A fresh age can only come from a proof of this very invoice and approver:
      signals of colon-free invoice ids are injective. */
  lemma ReadBacked(s: State, snap: Snapshot)
    requires Vouched(s) && Reads(s.rules, s.invoices, s.desk.attestations, s.queue.now, snap)
    ensures SnapBacked(s, snap)
  {
    if snap.age.Some? {
      var signal := Signal(snap.invoice, snap.approver);
      var since := s.queue.now - snap.route.policy.attestationMaxAgeSec * 1000;
      var row :| row in s.desk.attestations && Fresh(s.desk.attestations, row, snap.approver, signal, since);
      assert BackedProof(s.desk.challenges, row.0, s.desk.attestations[row].member);
      var i: Id :| row.0 == Signal(i, snap.approver) && ColonFree(i) && Backed(s.desk.challenges, i, snap.approver);
      SignalInjective(i, snap.approver, snap.invoice, snap.approver);
    }
  }

  lemma InvoiceIdColonFree(random: seq<nat>)
    ensures ColonFree(InvoiceId(random))
  {
    NewIdColonFree("inv", random);
  }

  lemma StepVouched(c: Config, s: State, a: Step)
    requires !c.worldDemo && Vouched(s) && Enabled(c, s, a)
    ensures Vouched(Apply(c, s, a))
  {
    match a
    case AtDesk(d) =>
      DeskStepSound(c, s, d);
      forall call | call in s.deciding ensures SnapBacked(Apply(c, s, a), s.deciding[call]) {
        assert SnapBacked(s, s.deciding[call]);
        if s.deciding[call].age.Some? {
          BurnedStays(c, s, d, s.deciding[call].invoice, s.deciding[call].approver);
        }
      }
    case ReadDecision(call, snap) => ReadBacked(s, snap);
    case CommitDecision(call) => Payments.CommitKeepsIds(c, s, s.deciding[call]);
    case DecideAtOnce(snap) => Payments.CommitKeepsIds(c, s, snap);
    case CreateInvoice(random, _, _) => InvoiceIdColonFree(random);
    case InHandler(e, h) => HandlerVouched(c, s, e, h);
    case _ =>
  }

  lemma HandlerVouched(c: Config, s: State, e: Pools.Ticket, h: HandlerStep)
    requires Vouched(s) && HandlerEnabled(s, e, h)
    ensures Vouched(HandlerAfter(c, s, e, h))
  {
    var s' := HandlerAfter(c, s, e, h);
    assert s'.desk == s.desk && s'.deciding == s.deciding && s'.invoices.Keys == s.invoices.Keys;
  }

  lemma {:induction false} RunVouched(c: Config, r: Run)
    requires !c.worldDemo && Legal(c, r)
    ensures Vouched(After(c, r))
  {
    if r.Then? {
      RunVouched(c, r.prior);
      StepVouched(c, After(c, r.prior), r.step);
    }
  }

  /* ------------------------------------------------------------ main result */

  /** The approve row a step records under a tier that asks for a proof. */
  ghost function AttestedRow(c: Config, s: State, a: Step): set<(Id, Id)>
    requires Enabled(c, s, a)
  {
    match DecidedOn(c, s, a)
    case None => {}
    case Some(snap) =>
      var row := (snap.invoice, snap.approver);
      if snap.verdict == Approve && snap.route.policy.requiredAttestation.Some?
         && row !in s.approvals && row in Apply(c, s, a).approvals
      then {row} else {}
  }

  ghost function AttestedRows(c: Config, r: Run): set<(Id, Id)>
    requires Legal(c, r)
  {
    if r.Start? then {} else AttestedRows(c, r.prior) + AttestedRow(c, After(c, r.prior), r.step)
  }

  lemma RecordedMeansFreshProof(c: Config, s: State, snap: Snapshot)
    requires (snap.invoice, snap.approver) !in s.approvals
    requires (snap.invoice, snap.approver) in Committed(c, s, snap).approvals
    requires snap.route.policy.requiredAttestation.Some?
    ensures snap.age.Some?
  {
  }

  lemma StepBacksItsRow(c: Config, s: State, a: Step)
    requires Vouched(s) && Enabled(c, s, a)
    ensures forall row | row in AttestedRow(c, s, a) :: Backed(Apply(c, s, a).desk.challenges, row.0, row.1)
  {
    if AttestedRow(c, s, a) != {} {
      var snap := DecidedOn(c, s, a).value;
      RecordedMeansFreshProof(c, s, snap);
      if a.DecideAtOnce? {
        ReadBacked(s, snap);
      }
      assert SnapBacked(s, snap);
    }
  }

  lemma StepKeepsBacked(c: Config, s: State, a: Step, invoice: Id, member: Id)
    requires Enabled(c, s, a) && Backed(s.desk.challenges, invoice, member)
    ensures Backed(Apply(c, s, a).desk.challenges, invoice, member)
  {
    match a
    case AtDesk(d) => BurnedStays(c, s, d, invoice, member);
    case InHandler(e, h) => assert HandlerAfter(c, s, e, h).desk == s.desk;
    case _ =>
  }

  lemma {:induction false} RowsBacked(c: Config, r: Run)
    requires !c.worldDemo && Legal(c, r)
    ensures forall row | row in AttestedRows(c, r) :: Backed(After(c, r).desk.challenges, row.0, row.1)
  {
    if r.Then? {
      RowsBacked(c, r.prior);
      RunVouched(c, r.prior);
      var s := After(c, r.prior);
      StepBacksItsRow(c, s, r.step);
      forall row | row in AttestedRows(c, r.prior) ensures Backed(After(c, r).desk.challenges, row.0, row.1) {
        StepKeepsBacked(c, s, r.step, row.0, row.1);
      }
    }
  }

  /** Distinct approvals burned distinct challenges. */
  ghost predicate OneChallengeEach(t: Challenges, rows: set<(Id, Id)>, spent: map<(Id, Id), string>) {
    && spent.Keys == rows
    && (forall row | row in spent :: BurnedFor(t, spent[row], row.0, row.1))
    && (forall row, other | row in spent && other in spent && spent[row] == spent[other] :: row == other)
  }

  /** Outside demo mode the approvals recorded under an attested tier map
      injectively to consumed nonces, each minted for that invoice and approver and
      unexpired when it was burned. */
  lemma AttestedApprovalsBurnTheirOwnChallenge(c: Config, r: Run)
    requires !c.worldDemo && Legal(c, r)
    ensures exists spent :: OneChallengeEach(After(c, r).desk.challenges, AttestedRows(c, r), spent)
  {
    RowsBacked(c, r);
    var t := After(c, r).desk.challenges;
    var rows := AttestedRows(c, r);
    var spent := map row | row in rows :: var nonce :| nonce in t && BurnedFor(t, nonce, row.0, row.1); nonce;
    assert OneChallengeEach(t, rows, spent);
  }

  lemma AttestedRowOnFile(c: Config, s: State, a: Step)
    requires Enabled(c, s, a)
    ensures forall row | row in AttestedRow(c, s, a) :: row in Apply(c, s, a).approvals
              && Apply(c, s, a).approvals[row] == Approve
  {
    hide DecideTx;
    if DecidedOn(c, s, a).Some? {
      DecideTxFootprint(c.conflictAborts, Tables(s), s.queue.now, DecidedOn(c, s, a).value);
    }
  }

  /** Those approvals are on file. */
  lemma {:induction false} AttestedRowsOnFile(c: Config, r: Run)
    requires Legal(c, r)
    ensures forall row | row in AttestedRows(c, r) :: row in After(c, r).approvals
              && After(c, r).approvals[row] == Approve
  {
    hide AttestedRow, Apply, Enabled;
    if r.Then? {
      AttestedRowsOnFile(c, r.prior);
      AttestedRowOnFile(c, After(c, r.prior), r.step);
      Payments.StepExtends(c, After(c, r.prior), r.step);
    }
  }
}
