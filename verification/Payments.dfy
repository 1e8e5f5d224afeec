/** Payments over every run: stale decisions, crashes between send and mark, retries
    and overlapping workers included. No lease discipline is assumed. */
module Payments {
  import opened Domain
  import opened Policies
  import opened Approvals
  import opened Payout
  import opened Protocol
  import opened Sums
  import Q = Queue
  import Pools
  import PoolSafety

  ghost predicate SameTerms(a: Invoice, b: Invoice) {
    a.org == b.org && a.submitter == b.submitter && a.amount == b.amount && a.payee == b.payee
  }

  ghost predicate SoundJob(s: State, k: string)
    requires k in s.queue.jobs
  {
    var j := s.queue.jobs[k];
    || (j.kind == Q.PAYOUT && k == PayoutKey(j.payload) && j.payload in s.invoices)
    || (j.kind == Q.SLACK_NOTIFY && k == NotifyKey(j.payload))
  }

  ghost predicate SoundCopy(s: State, k: string, inv: Invoice) {
    && k in s.queue.jobs && s.queue.jobs[k].kind == Q.PAYOUT && s.queue.jobs[k].payload in s.invoices
    && SameTerms(inv, s.invoices[s.queue.jobs[k].payload]) && inv.payee.Some?
  }

  ghost predicate SoundPhase(s: State, e: Pools.Ticket)
    requires e in s.handling
  {
    match s.handling[e]
    case NeedsTreasury(inv) => SoundCopy(s, e.0, inv)
    case NeedsSend(inv, _) => SoundCopy(s, e.0, inv)
    case _ => true
  }

  /** A request, sent or paid, carries its invoice's key, amount and payee. */
  ghost predicate SoundTransfer(s: State, k: string, t: Transfer) {
    && k in s.queue.jobs && s.queue.jobs[k].kind == Q.PAYOUT && k == PayoutKey(s.queue.jobs[k].payload)
    && s.queue.jobs[k].payload in s.invoices
    && var inv := s.invoices[s.queue.jobs[k].payload];
       t.amount == inv.amount && inv.payee == Some(t.payee)
  }

  /** The invoices the provider has a payment for, and those paid from one wallet. */
  ghost function PaidInvoices(s: State): set<Id> {
    set i | i in s.invoices && PayoutKey(i) in s.ledger.seen
  }

  ghost function PaidFrom(s: State, wallet: string): set<Id> {
    set i | i in s.invoices && PayoutKey(i) in s.ledger.seen && s.ledger.seen[PayoutKey(i)].wallet == wallet
  }

  /** The amounts of some invoices, each once. */
  ghost function Amounts(invoices: map<Id, Invoice>, ids: set<Id>): map<Id, int> {
    map i | i in ids && i in invoices :: invoices[i].amount
  }

  /** Each wallet is debited by exactly the payments that left it, and all of them
      together by all payments. */
  ghost predicate Accounted(s: State) {
    && (forall w :: ValueAt(s.ledger.debits, w) == Sum(Amounts(s.invoices, PaidFrom(s, w))))
    && Sum(s.ledger.debits) == Sum(Amounts(s.invoices, PaidInvoices(s)))
  }

  ghost predicate Sound(s: State) {
    && (forall k | k in s.queue.jobs :: SoundJob(s, k))
    && (forall e | e in s.handling :: SoundPhase(s, e))
    && (forall k | k in s.ledger.seen :: SoundTransfer(s, k, s.ledger.seen[k]))
    && (forall f | f in s.flying :: SoundTransfer(s, f.0, f.1))
    && (forall call | call in s.deciding :: s.deciding[call].route.required >= 1)
    && (forall call | call in s.deciding :: s.deciding[call].invoice in s.invoices)
    && Accounted(s)
  }

  /** Rows are never removed and never change what they are for. */
  ghost predicate Extends(s: State, s': State) {
    && (forall i | i in s.invoices :: i in s'.invoices && SameTerms(s.invoices[i], s'.invoices[i]))
    && (forall k | k in s.queue.jobs :: k in s'.queue.jobs
          && s'.queue.jobs[k].kind == s.queue.jobs[k].kind && s'.queue.jobs[k].payload == s.queue.jobs[k].payload)
    && (forall row | row in s.approvals :: row in s'.approvals && s'.approvals[row] == s.approvals[row])
  }

  lemma CommitExtends(c: Config, s: State, snap: Snapshot)
    ensures Extends(s, Committed(c, s, snap))
  {
    DecideTxFootprint(c.conflictAborts, Tables(s), s.queue.now, snap);
    var s' := Committed(c, s, snap);
    forall i | i in s.invoices ensures i in s'.invoices && SameTerms(s.invoices[i], s'.invoices[i]) {
    }
    forall row | row in s.approvals ensures row in s'.approvals && s'.approvals[row] == s.approvals[row] {
    }
  }

  lemma CommitKeepsIds(c: Config, s: State, snap: Snapshot)
    ensures Committed(c, s, snap).invoices.Keys == s.invoices.Keys
  {
    DecideTxFootprint(c.conflictAborts, Tables(s), s.queue.now, snap);
  }

  lemma CreateExtends(s: State, id: Id, inv: Invoice)
    requires id !in s.invoices && NotifyKey(id) !in s.queue.jobs
    ensures Extends(s, Created(s, id, inv))
  {
  }

  lemma QueueExtends(c: Config, s: State, x: Pools.Step)
    requires Pools.Enabled(c.pools, s.queue, x)
    ensures Extends(s, s.(queue := Pools.Apply(c.pools, s.queue, x)))
  {
    PoolSafety.RowsKept(c.pools, s.queue, x);
  }

  lemma HandlerExtends(c: Config, s: State, e: Pools.Ticket, h: HandlerStep)
    requires HandlerEnabled(s, e, h)
    ensures Extends(s, HandlerAfter(c, s, e, h))
  {
    var s' := HandlerAfter(c, s, e, h);
    assert s'.queue == s.queue && s'.approvals == s.approvals;
    forall i | i in s.invoices ensures i in s'.invoices && SameTerms(s.invoices[i], s'.invoices[i]) {
    }
  }

  lemma StepExtends(c: Config, s: State, a: Step)
    requires Enabled(c, s, a)
    ensures Extends(s, Apply(c, s, a))
  {
    match a
    case Queue(x) => QueueExtends(c, s, x);
    case CommitDecision(call) => CommitExtends(c, s, s.deciding[call]);
    case DecideAtOnce(snap) => CommitExtends(c, s, snap);
    case CreateInvoice(random, inv, _) => CreateExtends(s, InvoiceId(random), inv);
    case InHandler(e, h) => HandlerExtends(c, s, e, h);
    case _ =>
  }

  lemma {:induction false} RunExtends(c: Config, q: Run, r: Run)
    requires Legal(c, r) && Within(q, r) && Legal(c, q)
    ensures Extends(After(c, q), After(c, r))
  {
    if q != r {
      RunExtends(c, q, r.prior);
      StepExtends(c, After(c, r.prior), r.step);
    }
  }

  /* ---------------------------------------------------------- the invariant */

  /** What was sound of rows, copies and requests stays sound. */
  lemma ExtendsKeepsSound(s: State, s': State)
    requires Sound(s) && Extends(s, s')
    ensures forall k | k in s.queue.jobs :: SoundJob(s', k)
    ensures forall e | e in s.handling && e in s'.handling && s'.handling[e] == s.handling[e] :: SoundPhase(s', e)
    ensures forall k, t | SoundTransfer(s, k, t) :: SoundTransfer(s', k, t)
  {
    forall k | k in s.queue.jobs ensures SoundJob(s', k) {
      assert SoundJob(s, k);
    }
    forall e | e in s.handling && e in s'.handling && s'.handling[e] == s.handling[e] ensures SoundPhase(s', e) {
      assert SoundPhase(s, e);
    }
  }

  lemma PaidExists(s: State, i: Id)
    requires Sound(s) && PayoutKey(i) in s.ledger.seen
    ensures i in s.invoices
  {
    hide SoundJob, SoundPhase, Accounted;
    assert SoundTransfer(s, PayoutKey(i), s.ledger.seen[PayoutKey(i)]);
    PayoutKeyInjective(i, s.queue.jobs[PayoutKey(i)].payload);
  }

  lemma SamePaid(s: State, s': State, w: string)
    requires Extends(s, s') && s'.ledger == s.ledger && forall i | PayoutKey(i) in s.ledger.seen :: i in s.invoices
    ensures PaidInvoices(s') == PaidInvoices(s) <= s.invoices.Keys
    ensures PaidFrom(s', w) == PaidFrom(s, w) <= s.invoices.Keys
  {
    hide PayoutKey;
  }

  lemma SameAmounts(s: State, s': State, ids: set<Id>)
    requires Extends(s, s') && ids <= s.invoices.Keys
    ensures Amounts(s'.invoices, ids) == Amounts(s.invoices, ids)
  {
  }

  /** An invoice with a payment already existed, so extending the tables alone
      changes no account. */
  lemma AccountedKept(s: State, s': State)
    requires Sound(s) && Extends(s, s') && s'.ledger == s.ledger
    ensures Accounted(s')
  {
    hide SoundJob, SoundPhase, SoundTransfer, PayoutKey, Sum, PaidInvoices, PaidFrom, Extends, ValueAt, Amounts;
    forall i | PayoutKey(i) in s.ledger.seen ensures i in s.invoices {
      PaidExists(s, i);
    }
    SamePaid(s, s', "");
    SameAmounts(s, s', PaidInvoices(s));
    forall w ensures Amounts(s'.invoices, PaidFrom(s', w)) == Amounts(s.invoices, PaidFrom(s, w)) {
      SamePaid(s, s', w);
      SameAmounts(s, s', PaidFrom(s, w));
    }
  }

  lemma CommitSound(c: Config, s: State, snap: Snapshot)
    requires Sound(s) && snap.invoice in s.invoices
    ensures Sound(Committed(c, s, snap))
  {
    var s' := Committed(c, s, snap);
    CommitExtends(c, s, snap);
    ExtendsKeepsSound(s, s');
    AccountedKept(s, s');
    DecideTxFootprint(c.conflictAborts, Tables(s), s.queue.now, snap);
  }

  lemma NewlyPaid(s: State, i: Id, t: Transfer, w: string)
    requires i in s.invoices && PayoutKey(i) !in s.ledger.seen
    ensures var s' := s.(ledger := Broadcast(s.ledger, PayoutKey(i), t));
            && PaidInvoices(s') == PaidInvoices(s) + {i}
            && PaidFrom(s', w) == (if w == t.wallet then PaidFrom(s, w) + {i} else PaidFrom(s, w))
            && i !in PaidInvoices(s) && i !in PaidFrom(s, w)
  {
    forall j ensures PayoutKey(j) == PayoutKey(i) ==> j == i {
      PayoutKeyInjective(j, i);
    }
    hide PayoutKey;
  }

  lemma OneMore(invoices: map<Id, Invoice>, ids: set<Id>, i: Id)
    requires i in invoices && i !in ids
    ensures Sum(Amounts(invoices, ids + {i})) == Sum(Amounts(invoices, ids)) + invoices[i].amount
  {
    assert Amounts(invoices, ids + {i}) == Amounts(invoices, ids)[i := invoices[i].amount];
    SumUpdate(Amounts(invoices, ids), i, invoices[i].amount);
  }

  /** A first broadcast adds exactly its invoice's amount, and to its own wallet. */
  lemma BroadcastAccounted(s: State, i: Id, t: Transfer)
    requires Accounted(s) && i in s.invoices && t.amount == s.invoices[i].amount && PayoutKey(i) !in s.ledger.seen
    ensures Accounted(s.(ledger := Broadcast(s.ledger, PayoutKey(i), t)))
  {
    hide PayoutKey, Sum, PaidInvoices, PaidFrom, Amounts;
    var s' := s.(ledger := Broadcast(s.ledger, PayoutKey(i), t));
    NewlyPaid(s, i, t, t.wallet);
    OneMore(s.invoices, PaidInvoices(s), i);
    SumUpdate(s.ledger.debits, t.wallet, ValueAt(s.ledger.debits, t.wallet) + t.amount);
    forall w ensures ValueAt(s'.ledger.debits, w) == Sum(Amounts(s'.invoices, PaidFrom(s', w))) {
      NewlyPaid(s, i, t, w);
      OneMore(s.invoices, PaidFrom(s, w), i);
    }
  }

  /** Steps that leave the jobs and the ledger alone. */
  lemma QuietSound(s: State, s': State)
    requires Sound(s) && Extends(s, s')
    requires s'.queue == s.queue && s'.ledger == s.ledger && s'.flying == s.flying
    requires forall call | call in s'.deciding ::
               s'.deciding[call].route.required >= 1 && s'.deciding[call].invoice in s.invoices
    requires forall e | e in s'.handling && !(e in s.handling && s'.handling[e] == s.handling[e]) :: SoundPhase(s', e)
    ensures Sound(s')
  {
    ExtendsKeepsSound(s, s');
    AccountedKept(s, s');
  }

  /** A sound request may reach the provider at any time. */
  lemma ArrivalSound(s: State, k: string, t: Transfer)
    requires Sound(s) && SoundTransfer(s, k, t)
    ensures Sound(s.(ledger := Broadcast(s.ledger, k, t)))
  {
    hide PayoutKey, NotifyKey, Accounted, SoundJob, SoundPhase;
    var s' := s.(ledger := Broadcast(s.ledger, k, t));
    ExtendsKeepsSound(s, s');
    if k !in s.ledger.seen {
      BroadcastAccounted(s, s.queue.jobs[k].payload, t);
    }
  }

  lemma SentSound(s: State, k: string, t: Transfer)
    requires Sound(s) && SoundTransfer(s, k, t)
    ensures Sound(s.(flying := s.flying + {(k, t)}))
  {
    hide SoundTransfer;
    var s' := s.(flying := s.flying + {(k, t)});
    ExtendsKeepsSound(s, s');
    AccountedKept(s, s');
  }

  lemma SendSound(s: State, e: Pools.Ticket, answer: Answer)
    requires Sound(s) && e.0 in s.queue.jobs && e in s.handling && s.handling[e].NeedsSend?
    ensures Sound(Sent(s, e, answer))
  {
    SoundHandler(s, e);
    var s' := Sent(s, e, answer);
    var k, t := PayoutKey(s.queue.jobs[e.0].payload), TransferFor(s.handling[e].inv, s.handling[e].wallet);
    assert SoundTransfer(s, k, t);
    hide SoundTransfer, SoundJob, SoundPhase, Accounted, PayoutKey;
    SentSound(s, k, t);
    var sent := s.(flying := s.flying + {(k, t)});
    ExtendsKeepsSound(s, sent);
    if answer.Answered? || answer.Arrived? {
      ArrivalSound(sent, k, t);
    }
    PhaseSound(sent.(ledger := s'.ledger), s', e);
  }

  /** A handler that is told of its request, or gives up. */
  lemma PhaseSound(s: State, s': State, e: Pools.Ticket)
    requires Sound(s) && e in s'.handling && (s'.handling[e].NeedsMark? || s'.handling[e].Returned?)
    requires s' == s.(handling := s.handling[e := s'.handling[e]])
    ensures Sound(s')
  {
    hide Accounted, SoundTransfer;
    QuietSound(s, s');
  }

  lemma QueueSound(c: Config, s: State, x: Pools.Step)
    requires Sound(s) && Pools.Enabled(c.pools, s.queue, x) && !x.Enqueue?
    ensures Sound(s.(queue := Pools.Apply(c.pools, s.queue, x)))
  {
    var s' := s.(queue := Pools.Apply(c.pools, s.queue, x));
    PoolSafety.RowsKept(c.pools, s.queue, x);
    ExtendsKeepsSound(s, s');
    AccountedKept(s, s');
  }

  lemma CreateSound(s: State, id: Id, inv: Invoice)
    requires Sound(s) && id !in s.invoices && NotifyKey(id) !in s.queue.jobs
    ensures Sound(Created(s, id, inv))
  {
    var s' := Created(s, id, inv);
    CreateExtends(s, id, inv);
    ExtendsKeepsSound(s, s');
    AccountedKept(s, s');
  }

  lemma SoundHandler(s: State, e: Pools.Ticket)
    requires Sound(s) && e.0 in s.queue.jobs
    ensures SoundJob(s, e.0) && (e in s.handling ==> SoundPhase(s, e))
  {
  }

  lemma LoadSound(c: Config, s: State, e: Pools.Ticket, h: HandlerStep)
    requires Sound(s) && HandlerEnabled(s, e, h) && (h.LoadInvoice? || h.LoadTreasury?)
    ensures Sound(HandlerAfter(c, s, e, h))
  {
    hide SoundTransfer, Accounted;
    SoundHandler(s, e);
    QuietSound(s, HandlerAfter(c, s, e, h));
  }

  lemma MarkSound(s: State, e: Pools.Ticket, id: Id, phase: Phase)
    requires Sound(s) && (phase.NeedsMark? || phase.Returned?)
    ensures Sound(s.(invoices := MarkPaid(s.invoices, id), handling := s.handling[e := phase]))
  {
    hide Accounted, SoundTransfer;
    QuietSound(s, s.(invoices := MarkPaid(s.invoices, id), handling := s.handling[e := phase]));
  }

  lemma HandlerSound(c: Config, s: State, e: Pools.Ticket, h: HandlerStep)
    requires Sound(s) && HandlerEnabled(s, e, h)
    ensures Sound(HandlerAfter(c, s, e, h))
  {
    hide Sound, Sent, MarkPaid, ReadInvoice, ReadTreasury;
    match h
    case Send(answer) => SendSound(s, e, answer);
    case LoadInvoice => LoadSound(c, s, e, h);
    case LoadTreasury => LoadSound(c, s, e, h);
    case Mark(audited) => MarkSound(s, e, s.queue.jobs[e.0].payload, Returned(audited));
    case GiveUp => PhaseSound(s, s.(handling := s.handling[e := Returned(false)]), e);
    case Notify(ok) => PhaseSound(s, s.(handling := s.handling[e := Returned(ok)]), e);
  }

  lemma DecisionSound(c: Config, s: State, call: nat)
    requires Sound(s) && call in s.deciding
    ensures Sound(Apply(c, s, CommitDecision(call)))
  {
    hide Committed, SoundJob, SoundPhase, SoundTransfer, Accounted;
    var committed := Committed(c, s, s.deciding[call]);
    CommitSound(c, s, s.deciding[call]);
    CommitExtends(c, s, s.deciding[call]);
    var s' := committed.(deciding := s.deciding - {call});
    QuietSound(committed, s');
    assert Apply(c, s, CommitDecision(call)) == s';
  }

  lemma ReadKnowsInvoice(s: State, snap: Snapshot)
    requires ReadsIn(s, snap)
    ensures snap.invoice in s.invoices
  {
  }

  lemma DecidedKnowsInvoice(c: Config, s: State, a: Step)
    requires Sound(s) && Enabled(c, s, a) && DecidedOn(c, s, a).Some?
    ensures DecidedOn(c, s, a).value.invoice in s.invoices
  {
    hide ReadsIn;
    if a.DecideAtOnce? {
      ReadKnowsInvoice(s, a.snap);
    }
  }

  lemma ReadingSound(s: State, call: nat, snap: Snapshot)
    requires Sound(s) && ReadsIn(s, snap)
    ensures Sound(s.(deciding := s.deciding[call := snap]))
  {
    hide Accounted, SoundTransfer, SoundJob, SoundPhase;
    QuietSound(s, s.(deciding := s.deciding[call := snap]));
  }

  /** Steps at the desk, and administration. */
  lemma AsideSound(s: State, s': State)
    requires Sound(s) && s' == s.(rules := s'.rules, desk := s'.desk)
    ensures Sound(s')
  {
    hide Accounted, SoundTransfer, SoundJob, SoundPhase;
    QuietSound(s, s');
  }

  lemma FlyingSound(s: State, k: string, t: Transfer)
    requires Sound(s) && (k, t) in s.flying
    ensures Sound(s.(ledger := Broadcast(s.ledger, k, t)))
  {
    hide SoundTransfer;
    assert SoundTransfer(s, (k, t).0, (k, t).1);
    ArrivalSound(s, k, t);
  }

  lemma StepSound(c: Config, s: State, a: Step)
    requires Sound(s) && Enabled(c, s, a)
    ensures Sound(Apply(c, s, a))
  {
    hide Sound, ReadsIn, DeskAfter;
    match a
    case Queue(x) => QueueSound(c, s, x);
    case CommitDecision(call) => DecisionSound(c, s, call);
    case DecideAtOnce(snap) =>
      ReadKnowsInvoice(s, snap);
      CommitSound(c, s, snap);
    case CreateInvoice(random, inv, _) => CreateSound(s, InvoiceId(random), inv);
    case InHandler(e, h) => HandlerSound(c, s, e, h);
    case Arrive(key, t) => FlyingSound(s, key, t);
    case ReadDecision(call, snap) => ReadingSound(s, call, snap);
    case _ => AsideSound(s, Apply(c, s, a));
  }

  lemma {:induction false} RunSound(c: Config, r: Run)
    requires Legal(c, r)
    ensures Sound(After(c, r))
  {
    if r.Then? {
      RunSound(c, r.prior);
      StepSound(c, After(c, r.prior), r.step);
    } else {
      assert Amounts(map[], PaidInvoices(After(c, r))) == map[];
      assert forall w :: Amounts(map[], PaidFrom(After(c, r), w)) == map[];
    }
  }

  /* ------------------------------------------------------------- main results */

  /** Every payment the provider made carries the key of an existing invoice, its
      payee and exactly its amount, and has its payout job; each wallet is debited by
      the sum of the invoices paid from it, each counted once, and all wallets
      together by the sum of all paid invoices. */
  lemma PaymentsExact(c: Config, r: Run)
    requires Legal(c, r)
    ensures var s := After(c, r);
            && (forall k | k in s.ledger.seen ::
                  exists i | i in s.invoices ::
                    && k == PayoutKey(i) && s.ledger.seen[k].amount == s.invoices[i].amount
                    && s.invoices[i].payee == Some(s.ledger.seen[k].payee)
                    && k in s.queue.jobs && s.queue.jobs[k].kind == Q.PAYOUT && s.queue.jobs[k].payload == i)
            && (forall w :: ValueAt(s.ledger.debits, w) == Sum(Amounts(s.invoices, PaidFrom(s, w))))
            && Sum(s.ledger.debits) == Sum(Amounts(s.invoices, PaidInvoices(s)))
  {
    RunSound(c, r);
    var s := After(c, r);
    forall k | k in s.ledger.seen
      ensures exists i | i in s.invoices ::
                && k == PayoutKey(i) && s.ledger.seen[k].amount == s.invoices[i].amount
                && s.invoices[i].payee == Some(s.ledger.seen[k].payee)
                && k in s.queue.jobs && s.queue.jobs[k].kind == Q.PAYOUT && s.queue.jobs[k].payload == i
    {
      assert SoundTransfer(s, k, s.ledger.seen[k]);
      var i := s.queue.jobs[k].payload;
      assert i in s.invoices;
    }
  }

  lemma PaymentHasJob(c: Config, r: Run, i: Id)
    requires Legal(c, r) && PayoutKey(i) in After(c, r).ledger.seen
    ensures PayoutKey(i) in After(c, r).queue.jobs
  {
    RunSound(c, r);
    assert SoundTransfer(After(c, r), PayoutKey(i), After(c, r).ledger.seen[PayoutKey(i)]);
  }

  lemma StepKeepsPayments(c: Config, s: State, a: Step, k: string)
    requires Enabled(c, s, a) && k in s.ledger.seen
    ensures k in Apply(c, s, a).ledger.seen && Apply(c, s, a).ledger.seen[k] == s.ledger.seen[k]
  {
    if a.InHandler? && a.h.Send? {
      assert Apply(c, s, a) == Sent(s, a.e, a.h.answer);
    }
  }

  /** A payment once made is never made again and never altered. */
  lemma {:induction false} PaymentFinal(c: Config, q: Run, r: Run, i: Id)
    requires Legal(c, r) && Within(q, r) && Legal(c, q)
    requires PayoutKey(i) in After(c, q).ledger.seen
    ensures PayoutKey(i) in After(c, r).ledger.seen
    ensures After(c, r).ledger.seen[PayoutKey(i)] == After(c, q).ledger.seen[PayoutKey(i)]
  {
    if q != r {
      PaymentFinal(c, q, r.prior, i);
      StepKeepsPayments(c, After(c, r.prior), r.step, PayoutKey(i));
    }
  }

  /** At some point of the run the snapshot is what a decision read. */
  ghost predicate WasRead(c: Config, r: Run, snap: Snapshot) {
    exists p :: Within(p, r) && Legal(c, p) && ReadsIn(After(c, p), snap)
  }

  lemma WasReadStays(c: Config, r: Run, snap: Snapshot)
    requires r.Then? && WasRead(c, r.prior, snap)
    ensures WasRead(c, r, snap)
  {
    hide Legal, After, ReadsIn;
    var p :| Within(p, r.prior) && Legal(c, p) && ReadsIn(After(c, p), snap);
    assert Within(p, r);
  }

  lemma {:induction false} RunReads(c: Config, r: Run, call: nat)
    requires Legal(c, r) && call in After(c, r).deciding
    ensures WasRead(c, r, After(c, r).deciding[call])
  {
    hide Apply, ReadsIn, Reads;
    if r.Then? {
      var s := After(c, r.prior);
      OnlyReadingBegins(c, s, r.step);
      if r.step.ReadDecision? && call == r.step.call {
        ReadingReads(c, s, r.step);
        assert Within(r.prior, r) && ReadsIn(s, After(c, r).deciding[call]);
      } else {
        RunReads(c, r.prior, call);
        WasReadStays(c, r, s.deciding[call]);
      }
    }
  }

  lemma ReadingReads(c: Config, s: State, a: Step)
    requires Enabled(c, s, a) && (a.ReadDecision? || a.DecideAtOnce?)
    ensures ReadsIn(s, a.snap)
  {
    hide ReadsIn;
  }

  /** Whatever a transaction runs on was read somewhere in the run. */
  lemma DecidedWasRead(c: Config, r: Run, a: Step)
    requires Legal(c, r) && Enabled(c, After(c, r), a) && DecidedOn(c, After(c, r), a).Some?
    ensures WasRead(c, r, DecidedOn(c, After(c, r), a).value)
  {
    hide Apply, ReadsIn;
    match a
    case CommitDecision(call) => RunReads(c, r, call);
    case DecideAtOnce(snap) =>
      ReadingReads(c, After(c, r), a);
      assert Within(r, r);
  }

  lemma ReadRequiresOne(c: Config, r: Run, snap: Snapshot)
    requires WasRead(c, r, snap)
    ensures snap.route.required >= 1
    ensures forall collected: nat | collected >= snap.route.required :: Enough(snap.route, collected)
  {
    var p :| Within(p, r) && Legal(c, p) && ReadsIn(After(c, p), snap);
    hide Legal, After, Within;
    assert ReadsIn(After(c, p), snap);
  }

  /** As many as the tier wants, or as there are people to ask. */
  ghost predicate Enough(d: Routing, collected: nat) {
    collected >= d.policy.requiredApprovals || (collected >= |d.eligible| > 0)
  }

  /** `q` ends in the transaction that wrote the invoice's payout job. It ran on a
      snapshot read in that run, and counted the approvals the route then required:
      as many as its tier wants, or as it lists people. */
  ghost predicate QuorumCommit(c: Config, q: Run, i: Id) {
    && q.Then? && Legal(c, q)
    && var before, after := After(c, q.prior), After(c, q);
       && PayoutKey(i) !in before.queue.jobs && PayoutKey(i) in after.queue.jobs
       && DecidedOn(c, before, q.step).Some?
       && var snap := DecidedOn(c, before, q.step).value;
          && snap.invoice == i && snap.verdict == Approve && WasRead(c, q.prior, snap)
          && |Approvers(after.approvals, i)| >= snap.route.required >= 1
          && Enough(snap.route, |Approvers(after.approvals, i)|)
  }

  lemma CommitQuorum(c: Config, s: State, snap: Snapshot, i: Id)
    requires PayoutKey(i) !in s.queue.jobs && PayoutKey(i) in Committed(c, s, snap).queue.jobs
    ensures snap.invoice == i && snap.verdict == Approve
    ensures |Approvers(Committed(c, s, snap).approvals, i)| >= snap.route.required
  {
    PayoutKeyInjective(i, snap.invoice);
  }

  lemma OnlyDecisionsEnqueuePayouts(c: Config, s: State, a: Step, i: Id)
    requires Enabled(c, s, a) && DecidedOn(c, s, a).None? && PayoutKey(i) in Apply(c, s, a).queue.jobs
    ensures PayoutKey(i) in s.queue.jobs
  {
    hide HandlerAfter, DeskAfter, PayoutKey, NotifyKey, InvoiceId, Pools.Apply, Pools.Enabled;
    match a
    case Queue(x) => PoolSafety.RowsKept(c.pools, s.queue, x);
    case CreateInvoice(random, _, _) => PayoutKeyInjective(i, InvoiceId(random));
    case InHandler(e, h) => HandlerFrame(c, s, e, h);
    case _ =>
  }

  lemma FreshJobQuorum(c: Config, r: Run, i: Id)
    requires Legal(c, r) && r.Then?
    requires PayoutKey(i) !in After(c, r.prior).queue.jobs && PayoutKey(i) in After(c, r).queue.jobs
    ensures QuorumCommit(c, r, i)
  {
    hide Committed, DecideTx, Apply, Enabled, DecidedOn, PayoutKey, WasRead;
    var s := After(c, r.prior);
    if DecidedOn(c, s, r.step).None? {
      OnlyDecisionsEnqueuePayouts(c, s, r.step, i);
    } else {
      var snap := DecidedOn(c, s, r.step).value;
      DecisionStepCommits(c, s, r.step);
      CommitQuorum(c, s, snap, i);
      DecidedWasRead(c, r.prior, r.step);
      ReadRequiresOne(c, r.prior, snap);
    }
  }

  /** Every payout job was written by a transaction that counted its quorum. */
  lemma {:induction false} QuorumBehindJob(c: Config, r: Run, i: Id)
    requires Legal(c, r) && PayoutKey(i) in After(c, r).queue.jobs
    ensures exists q :: Within(q, r) && QuorumCommit(c, q, i)
  {
    var s := After(c, r.prior);
    hide QuorumCommit, Apply, Enabled, Sound;
    if PayoutKey(i) in s.queue.jobs {
      QuorumBehindJob(c, r.prior, i);
      var q :| Within(q, r.prior) && QuorumCommit(c, q, i);
      assert Within(q, r);
    } else {
      FreshJobQuorum(c, r, i);
      assert Within(r, r);
    }
  }

  /** Behind every payment stands a commit that counted at least the required, and
      at least one, approve rows of distinct approvers; all of them are still on
      file. */
  lemma QuorumBehindPayment(c: Config, r: Run, i: Id)
    requires Legal(c, r) && PayoutKey(i) in After(c, r).ledger.seen
    ensures exists q :: Within(q, r) && QuorumCommit(c, q, i) &&
              Approvers(After(c, q).approvals, i) <= Approvers(After(c, r).approvals, i)
  {
    RunSound(c, r);
    assert SoundTransfer(After(c, r), PayoutKey(i), After(c, r).ledger.seen[PayoutKey(i)]);
    QuorumBehindJob(c, r, i);
    var q :| Within(q, r) && QuorumCommit(c, q, i);
    RunExtends(c, q, r);
    forall a | a in Approvers(After(c, q).approvals, i) ensures a in Approvers(After(c, r).approvals, i) {
      OnFile(After(c, q).approvals, i, a);
      OnFile(After(c, r).approvals, i, a);
    }
  }
}
