/** The whole approval-to-payout protocol as one state machine.

    Every transaction closure, every statement that writes outside one, every call
    to the payment provider or the verifier, and every move of a worker pool is one
    step, taken in any order by any number of requests, workers and crashes. Reads
    are steps of their own where a later write relies on them: a payout handler's
    one by one, a decision's together. Minting a challenge and creating an invoice
    are one step with their reads. A decision comes in two forms: `ReadDecision` and
    `CommitDecision` let other steps run between its reads and its transaction,
    `DecideAtOnce` takes both as one step. */
module Protocol {
  import opened Domain
  import opened Policies
  import opened WorldId
  import opened Approvals
  import opened Payout
  import Q = Queue
  import Pools

  datatype Config = Config(pools: Pools.Config, conflictAborts: bool, worldDemo: bool, payDemo: bool)

  /** Where a running attestation call stands, after its challenge. */
  datatype Attest = Burned(invoice: Id, member: Id) | Verified(invoice: Id, member: Id, nullifier: string)

  /** The verification desk: its two tables and the calls under way. */
  datatype Desk = Desk(challenges: Challenges, attestations: Attestations, attesting: map<nat, Attest>)

  /** `flying` holds every request sent to the payment provider. A request may reach
      it late or more than once, whatever became of the sender. */
  datatype State = State(
    rules: map<Id, Rules>,
    invoices: map<Id, Invoice>,
    approvals: map<(Id, Id), Verdict>,
    queue: Pools.State,
    ledger: Ledger,
    flying: set<(string, Transfer)>,
    desk: Desk,
    deciding: map<nat, Snapshot>,
    handling: map<Pools.Ticket, Phase>)

  const INITIAL: State :=
    State(map[], map[], map[], Pools.INITIAL, Ledger(map[], map[]), {}, Desk(map[], map[], map[]), map[], map[])

  datatype DeskStep =
    | MintChallenge(nonce: string, invoice: Id, member: Id, route: Routing, expiresAt: int)
    | Burn(call: nat, nonce: string, invoice: Id, member: Id)
    | SkipBurn(call: nat, invoice: Id, member: Id)
    | Verify(call: nat, verdict: Verification)
    | Bank(call: nat)

  datatype HandlerStep =
    | LoadInvoice
    | LoadTreasury
    | Send(answer: Answer)
    | Mark(audited: bool)
    | GiveUp
    | Notify(ok: bool)

  datatype Step =
    | Queue(a: Pools.Step)
    | Administer(org: Id, rules: Rules)
    | CreateInvoice(random: seq<nat>, inv: Invoice, route: Routing)
    | ReadDecision(call: nat, snap: Snapshot)
    | CommitDecision(call: nat)
    | DecideAtOnce(snap: Snapshot)
    | AtDesk(d: DeskStep)
    | InHandler(e: Pools.Ticket, h: HandlerStep)
    | Arrive(key: string, t: Transfer)

  function Tables(s: State): Books {
    Books(s.invoices, s.approvals, s.queue.jobs)
  }

  /** The execution is running on its pool and handles jobs of this kind. */
  ghost predicate Handling(s: State, e: Pools.Ticket, kind: string) {
    && e in s.queue.live && e.0 in s.queue.jobs
    && s.queue.live[e].pool in s.queue.pools && e in s.queue.pools[s.queue.live[e].pool].running
    && s.queue.jobs[e.0].kind == kind
  }

  ghost predicate QueueEnabled(c: Config, s: State, a: Pools.Step) {
    && Pools.Enabled(c.pools, s.queue, a)
    && !a.Enqueue?
    && (a.Finish? ==>
          match a.outcome
          case Succeeded => a.e in s.handling && s.handling[a.e] == Returned(true)
          case Errored(_, _) => a.e in s.handling && s.handling[a.e] == Returned(false)
          case RetryLater(_) => false
          case _ => true)
  }

  ghost predicate DeskEnabled(c: Config, s: State, d: DeskStep) {
    match d
    case MintChallenge(nonce, invoice, member, route, _) =>
      && nonce !in s.desk.challenges
      && invoice in s.invoices && s.invoices[invoice].status == PendingApproval
      && s.invoices[invoice].org in s.rules
      && (var rules := s.rules[s.invoices[invoice].org];
          RoutesTo(s.invoices[invoice], rules.policies, rules.members, route))
      && IsEligible(route, member)
    case Burn(call, nonce, _, _) =>
      !c.worldDemo && call !in s.desk.attesting && Consumable(s.desk.challenges, nonce, s.queue.now)
    case SkipBurn(call, _, _) => c.worldDemo && call !in s.desk.attesting
    case Verify(call, _) => call in s.desk.attesting && s.desk.attesting[call].Burned?
    case Bank(call) => call in s.desk.attesting && s.desk.attesting[call].Verified?
  }

  ghost predicate HandlerEnabled(s: State, e: Pools.Ticket, h: HandlerStep) {
    match h
    case LoadInvoice => Handling(s, e, Q.PAYOUT) && e !in s.handling
    case LoadTreasury => Handling(s, e, Q.PAYOUT) && e in s.handling && s.handling[e].NeedsTreasury?
    case Send(_) => Handling(s, e, Q.PAYOUT) && e in s.handling && s.handling[e].NeedsSend?
    case Mark(_) => Handling(s, e, Q.PAYOUT) && e in s.handling && s.handling[e].NeedsMark?
    case GiveUp => Handling(s, e, Q.PAYOUT) && (e in s.handling ==> !s.handling[e].Returned?)
    case Notify(_) => Handling(s, e, Q.SLACK_NOTIFY) && e !in s.handling
  }

  /** The snapshot is what a decision reads in this state. */
  ghost predicate ReadsIn(s: State, snap: Snapshot) {
    Reads(s.rules, s.invoices, s.desk.attestations, s.queue.now, snap)
  }

  ghost predicate Enabled(c: Config, s: State, a: Step) {
    match a
    case Queue(x) => QueueEnabled(c, s, x)
    case Administer(_, _) => true
    case CreateInvoice(random, inv, route) =>
      && |random| == 16 && InvoiceId(random) !in s.invoices
      && NotifyKey(InvoiceId(random)) !in s.queue.jobs
      && inv.status == PendingApproval
      && inv.org in s.rules && RoutesTo(inv, s.rules[inv.org].policies, s.rules[inv.org].members, route)
    case ReadDecision(call, snap) => call !in s.deciding && ReadsIn(s, snap)
    case CommitDecision(call) => call in s.deciding
    case DecideAtOnce(snap) => ReadsIn(s, snap)
    case AtDesk(d) => DeskEnabled(c, s, d)
    case InHandler(e, h) => HandlerEnabled(s, e, h)
    case Arrive(key, t) => (key, t) in s.flying
  }

  function Created(s: State, id: Id, inv: Invoice): State {
    s.(invoices := s.invoices[id := inv],
       queue := s.queue.(jobs := s.queue.jobs[NotifyKey(id) := Q.NewRow(s.queue.now, NotifyParams(id))]))
  }

  function Committed(c: Config, s: State, snap: Snapshot): State {
    var b := DecideTx(c.conflictAborts, Tables(s), s.queue.now, snap).0;
    s.(invoices := b.invoices, approvals := b.approvals, queue := s.queue.(jobs := b.jobs))
  }

  function DeskAfter(k: Desk, now: int, d: DeskStep): Desk {
    match d
    case MintChallenge(nonce, invoice, member, _, expiresAt) =>
      k.(challenges := k.challenges[nonce := Challenge(invoice, member, expiresAt, None)])
    case Burn(call, nonce, invoice, member) =>
      if nonce !in k.challenges then k
      else
        var spent := k.(challenges := Consumed(k.challenges, nonce, now));
        if spent.challenges[nonce].invoice != invoice || spent.challenges[nonce].member != member then spent
        else spent.(attesting := k.attesting[call := Burned(invoice, member)])
    case SkipBurn(call, invoice, member) => k.(attesting := k.attesting[call := Burned(invoice, member)])
    case Verify(call, verdict) =>
      if call !in k.attesting then k
      else if !verdict.ok then k.(attesting := k.attesting - {call})
      else
        var x := k.attesting[call];
        k.(attesting := k.attesting[call := Verified(x.invoice, x.member, verdict.nullifier)])
    case Bank(call) =>
      if call !in k.attesting || !k.attesting[call].Verified? then k
      else
        var x := k.attesting[call];
        var row := (Signal(x.invoice, x.member), x.nullifier);
        Desk(k.challenges,
             if row in k.attestations then k.attestations else k.attestations[row := Attestation(x.member, now)],
             k.attesting - {call})
  }

  function Sent(s: State, e: Pools.Ticket, answer: Answer): State
    requires e.0 in s.queue.jobs && e in s.handling && s.handling[e].NeedsSend?
  {
    var x := s.handling[e];
    var key, t := PayoutKey(s.queue.jobs[e.0].payload), TransferFor(x.inv, x.wallet);
    s.(ledger := if answer.Arrived? || answer.Answered? then Broadcast(s.ledger, key, t) else s.ledger,
       flying := s.flying + {(key, t)},
       handling := s.handling[e := if answer.Answered? then NeedsMark else Returned(false)])
  }

  ghost function HandlerAfter(c: Config, s: State, e: Pools.Ticket, h: HandlerStep): State
    requires HandlerEnabled(s, e, h)
  {
    match h
    case LoadInvoice => s.(handling := s.handling[e := ReadInvoice(s.invoices, s.queue.jobs[e.0].payload)])
    case LoadTreasury => s.(handling := s.handling[e := ReadTreasury(s.rules, s.handling[e].inv, c.payDemo)])
    case Send(answer) => Sent(s, e, answer)
    case Mark(audited) =>
      s.(invoices := MarkPaid(s.invoices, s.queue.jobs[e.0].payload), handling := s.handling[e := Returned(audited)])
    case GiveUp => s.(handling := s.handling[e := Returned(false)])
    case Notify(ok) => s.(handling := s.handling[e := Returned(ok)])
  }

  ghost function Apply(c: Config, s: State, a: Step): State
    requires Enabled(c, s, a)
  {
    match a
    case Queue(x) => s.(queue := Pools.Apply(c.pools, s.queue, x))
    case Administer(org, rules) => s.(rules := s.rules[org := rules])
    case CreateInvoice(random, inv, _) => Created(s, InvoiceId(random), inv)
    case ReadDecision(call, snap) => s.(deciding := s.deciding[call := snap])
    case CommitDecision(call) => Committed(c, s, s.deciding[call]).(deciding := s.deciding - {call})
    case DecideAtOnce(snap) => Committed(c, s, snap)
    case AtDesk(d) => s.(desk := DeskAfter(s.desk, s.queue.now, d))
    case InHandler(e, h) => HandlerAfter(c, s, e, h)
    case Arrive(key, t) => s.(ledger := Broadcast(s.ledger, key, t))
  }

  /* --------------------------------------------------- what a step leaves alone */

  /** A decision writes invoices, decision rows and jobs, and nothing else. */
  lemma CommittedFrame(c: Config, s: State, snap: Snapshot)
    ensures var t := Committed(c, s, snap);
            && t.rules == s.rules && t.ledger == s.ledger && t.flying == s.flying && t.desk == s.desk
            && t.deciding == s.deciding && t.handling == s.handling
            && t.queue == s.queue.(jobs := t.queue.jobs)
  {
    hide DecideTx;
  }

  /** A handler writes its invoice, the ledger and its own phase, and nothing else. */
  lemma HandlerFrame(c: Config, s: State, e: Pools.Ticket, h: HandlerStep)
    requires HandlerEnabled(s, e, h)
    ensures var t := HandlerAfter(c, s, e, h);
            && t.rules == s.rules && t.approvals == s.approvals && t.queue == s.queue
            && t.desk == s.desk && t.deciding == s.deciding
            && t.invoices == (if h.Mark? then MarkPaid(s.invoices, s.queue.jobs[e.0].payload) else s.invoices)
            && t.invoices.Keys == s.invoices.Keys && t.handling.Keys == s.handling.Keys + {e}
            && (forall x | x in s.handling && x != e :: t.handling[x] == s.handling[x])
  {
    hide ReadInvoice, ReadTreasury, Broadcast, TransferFor;
  }

  /** Only reading begins a decision. */
  lemma OnlyReadingBegins(c: Config, s: State, a: Step)
    requires Enabled(c, s, a)
    ensures var now := Apply(c, s, a).deciding;
            forall call | call in now :: (call in s.deciding && now[call] == s.deciding[call])
                                         || (a.ReadDecision? && call == a.call && now[call] == a.snap)
    ensures a.ReadDecision? ==> a.call in Apply(c, s, a).deciding && Apply(c, s, a).deciding[a.call] == a.snap
  {
    hide Committed, HandlerAfter, DeskAfter;
    match a
    case InHandler(e, h) => HandlerFrame(c, s, e, h);
    case CommitDecision(call) => CommittedFrame(c, s, s.deciding[call]);
    case DecideAtOnce(snap) => CommittedFrame(c, s, snap);
    case _ =>
  }

  /* ------------------------------------------------------------------ runs */

  datatype Run = Start | Then(prior: Run, step: Step)

  ghost predicate Legal(c: Config, r: Run)
    decreases r, 0
  {
    r.Then? ==> Legal(c, r.prior) && Enabled(c, After(c, r.prior), r.step)
  }

  ghost function After(c: Config, r: Run): State
    requires Legal(c, r)
    decreases r, 1
  {
    if r.Start? then INITIAL else Apply(c, After(c, r.prior), r.step)
  }

  ghost predicate Within(q: Run, r: Run) {
    q == r || (r.Then? && Within(q, r.prior))
  }

  /** The snapshot a step's transaction runs on, if it is a decision. */
  ghost function DecidedOn(c: Config, s: State, a: Step): Option<Snapshot>
    requires Enabled(c, s, a)
  {
    match a
    case CommitDecision(call) => Some(s.deciding[call])
    case DecideAtOnce(snap) => Some(snap)
    case _ => None
  }

  /** Runs in which no other step falls between a decision's reads and its
      transaction. */
  ghost predicate Fused(r: Run) {
    r.Then? ==> Fused(r.prior) && !r.step.ReadDecision? && !r.step.CommitDecision?
  }

  /** The gate lets the decision through on the tables as they are. */
  ghost predicate GateAllows(s: State, snap: Snapshot) {
    GateOf(snap.route, snap.approver, snap.submitter, (snap.invoice, snap.approver) in s.approvals,
      snap.age) == Allowed
  }

  /** The transaction finds its invoice still pending, or leaves everything as it
      is: refused at the gate, or aborted on the payout job already there. */
  ghost predicate InTime(c: Config, s: State, snap: Snapshot) {
    snap.invoice in s.invoices ==>
      || s.invoices[snap.invoice].status == PendingApproval
      || !GateAllows(s, snap)
      || (&& c.conflictAborts && snap.verdict == Approve && PayoutKey(snap.invoice) in s.queue.jobs
          && |Approvers(s.approvals, snap.invoice)| + 1 >= snap.route.required)
  }

  /** Every decision's transaction comes in time. Other steps may fall between its
      reads and it. */
  ghost predicate Punctual(c: Config, r: Run)
    requires Legal(c, r)
  {
    r.Then? ==>
      && Punctual(c, r.prior)
      && var s := After(c, r.prior);
         DecidedOn(c, s, r.step).Some? ==> InTime(c, s, DecidedOn(c, s, r.step).value)
  }

  lemma {:induction false} FusedIsPunctual(c: Config, r: Run)
    requires Legal(c, r) && Fused(r)
    ensures Punctual(c, r)
  {
    if r.Then? {
      FusedIsPunctual(c, r.prior);
    }
  }

  lemma {:induction false} PrefixLegal(c: Config, q: Run, r: Run)
    requires Legal(c, r) && Within(q, r)
    ensures Legal(c, q)
    ensures Punctual(c, r) ==> Punctual(c, q)
  {
    if q != r {
      PrefixLegal(c, q, r.prior);
    }
  }

  lemma QueueOnly(c: Config, s: State, a: Step)
    requires Enabled(c, s, a) && a.Queue?
    ensures Pools.Enabled(c.pools, s.queue, a.a)
    ensures Apply(c, s, a) == s.(queue := Pools.Apply(c.pools, s.queue, a.a))
  {
    hide Pools.Enabled, Pools.Apply;
  }

  lemma HandlerOnly(c: Config, s: State, a: Step)
    requires Enabled(c, s, a) && a.InHandler?
    ensures HandlerEnabled(s, a.e, a.h) && Apply(c, s, a) == HandlerAfter(c, s, a.e, a.h)
    ensures a.e in s.queue.live
  {
    hide HandlerAfter;
  }

  /** Apart from taking the decision off the calls under way, a decision step is its
      transaction. */
  lemma DecisionStepCommits(c: Config, s: State, a: Step)
    requires Enabled(c, s, a) && DecidedOn(c, s, a).Some?
    ensures var t, snap := Apply(c, s, a), DecidedOn(c, s, a).value; t == Committed(c, s, snap).(deciding := t.deciding)
  {
    hide Committed;
  }

  /** Steps that are neither a decision nor a handler's leave decision rows and
      existing invoices alone. */
  lemma RowsAlone(c: Config, s: State, a: Step)
    requires Enabled(c, s, a) && DecidedOn(c, s, a).None? && !a.InHandler?
    ensures var t := Apply(c, s, a);
            && t.approvals == s.approvals
            && forall i | i in s.invoices :: i in t.invoices && t.invoices[i] == s.invoices[i]
  {
    hide DeskAfter, Pools.Apply, Pools.Enabled;
  }

  /* ----------------------------------------------- the queue inside the system */

  lemma DecisionEnqueues(c: Config, s: State, snap: Snapshot)
    ensures var s' := Committed(c, s, snap);
            || s'.queue == s.queue
            || (PayoutKey(snap.invoice) !in s.queue.jobs && s'.queue.jobs != s.queue.jobs &&
                s'.queue == s.queue.(jobs := s.queue.jobs[PayoutKey(snap.invoice) :=
                                               Q.NewRow(s.queue.now, PayoutParams(snap.invoice))]))
  {
  }

  /** What a step does to the job table and the pools. */
  ghost function QueueStep(c: Config, s: State, a: Step): Option<Pools.Step>
    requires Enabled(c, s, a)
  {
    match a
    case Queue(x) => Some(x)
    case CreateInvoice(random, _, _) => Some(Pools.Enqueue(NotifyParams(InvoiceId(random))))
    case CommitDecision(call) => DecisionStep(c, s, s.deciding[call])
    case DecideAtOnce(snap) => DecisionStep(c, s, snap)
    case _ => None
  }

  ghost function DecisionStep(c: Config, s: State, snap: Snapshot): Option<Pools.Step> {
    if Committed(c, s, snap).queue == s.queue then None else Some(Pools.Enqueue(PayoutParams(snap.invoice)))
  }

  lemma EnqueueApplies(c: Config, q: Pools.State, p: Q.EnqueueParams)
    requires p.key !in q.jobs && p.maxAttempts >= 0
    ensures Pools.Enabled(c.pools, q, Pools.Enqueue(p))
    ensures Pools.Apply(c.pools, q, Pools.Enqueue(p)) == q.(jobs := q.jobs[p.key := Q.NewRow(q.now, p)])
  {
  }

  lemma DecisionStepMatches(c: Config, s: State, snap: Snapshot)
    ensures match DecisionStep(c, s, snap)
            case None => Committed(c, s, snap).queue == s.queue
            case Some(x) =>
              Pools.Enabled(c.pools, s.queue, x) && Pools.Apply(c.pools, s.queue, x) == Committed(c, s, snap).queue
  {
    hide Committed, Pools.Apply, Pools.Enabled;
    DecisionEnqueues(c, s, snap);
    if DecisionStep(c, s, snap).Some? {
      EnqueueApplies(c, s.queue, PayoutParams(snap.invoice));
    }
  }

  lemma QueueStepMatches(c: Config, s: State, a: Step)
    requires Enabled(c, s, a)
    ensures match QueueStep(c, s, a)
            case None => Apply(c, s, a).queue == s.queue
            case Some(x) =>
              Pools.Enabled(c.pools, s.queue, x) && Pools.Apply(c.pools, s.queue, x) == Apply(c, s, a).queue
  {
    hide Committed, DeskAfter, HandlerAfter, Pools.Apply, Pools.Enabled;
    match a
    case InHandler(e, h) => HandlerFrame(c, s, e, h);
    case CreateInvoice(random, _, _) => EnqueueApplies(c, s.queue, NotifyParams(InvoiceId(random)));
    case CommitDecision(call) => DecisionStepMatches(c, s, s.deciding[call]);
    case DecideAtOnce(snap) => DecisionStepMatches(c, s, snap);
    case _ =>
  }

  /** The queue's part of a run: the moves of the pools, and an enqueue wherever a
      transaction wrote a job. */
  ghost function QueueRun(c: Config, r: Run): Pools.Run
    requires Legal(c, r)
  {
    if r.Start? then Pools.Start
    else
      match QueueStep(c, After(c, r.prior), r.step)
      case None => QueueRun(c, r.prior)
      case Some(x) => Pools.Then(QueueRun(c, r.prior), x)
  }

  /** Every run of the system is, seen from the job table, a run of the worker
      pools: what is proved of the pools holds inside the system. */
  lemma {:induction false} QueueRunsAreRuns(c: Config, r: Run)
    requires Legal(c, r)
    ensures Pools.Legal(c.pools, QueueRun(c, r))
    ensures Pools.After(c.pools, QueueRun(c, r)) == After(c, r).queue
  {
    if r.Then? {
      QueueRunsAreRuns(c, r.prior);
      QueueStepMatches(c, After(c, r.prior), r.step);
    }
  }
}
