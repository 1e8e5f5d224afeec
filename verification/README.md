# Quorly: approvals, payouts and the settlement token

Quorly lets an organisation's approvers decide on invoices and pays the approved ones in QUSD, a six-decimal
token. This project models that path and proves what it keeps: the approval protocol and the payout behind it, the
job queue and the worker pools that carry it, the encoders whose output is signed or sent to the chain, the token
contract, and the seats on the roster.

## How the model is laid out

| file | models |
|---|---|
| `Domain.dfy`, `Sums.dfy`, `Sorting.dfy` | shared entities; sums over the values of a map; sorting in place |
| `Queue.dfy`, `Worker.dfy` | the job table with its statements and backoff; one worker process |
| `Pools.dfy`, `PoolSafety.dfy`, `PoolLeases.dfy` | any number of worker pools as a state machine, and what its runs keep |
| `Policies.dfy` | choosing a tier, routing, the gate |
| `WorldId.dfy`, `Checkpoint.dfy` | challenges, banked proofs, signals; the two checkpoint endpoints |
| `Approvals.dfy`, `Payout.dfy` | creating and deciding invoices; the payout handler and the payment ledger |
| `Protocol.dfy` | the whole system as one state machine |
| `Payments.dfy`, `Entitlement.dfy`, `Completion.dfy`, `Attested.dfy`, `ProofWindow.dfy`, `Decisions.dfy` | what the system's runs keep |
| `Veto.dfy`, `Reread.dfy`, `StaleDecision.dfy` | reject against payment: when they stay apart, and runs in which they do not |
| `Progress.dfy`, `Resolution.dfy`, `Delivery.dfy` | what the system's runs can still reach: an approval, a payment |
| `StringOrder.dfy`, `Json.dfy`, `JsonRoundTrip.dfy`, `JsonWriter.dfy`, `Sign.dfy` | canonical JSON (RFC 8259, sections 4 to 7) and the signed payload |
| `Numerals.dfy`, `Money.dfy`, `Calldata.dfy`, `Allowlist.dfy` | decimal amounts, calldata (Solidity Contract ABI Specification, Formal Specification of the Encoding), the treasury's spend rule |
| `Token.dfy`, `TokenRuns.dfy`, `Settlement.dfy` | the QUSD contract (EIP-20), its call histories, and a payout seen from the token |
| `Seats.dfy`, `SeatRuns.dfy` | invitations, sign-ins and removals on the roster; their runs |

Operations that change state are methods on classes holding the tables as maps; each is proved equal to a function
of the old state (for instance `Store.DecideInTx` to `DecideTx`), and the state machines take their steps by the same
functions, so the theorems about runs are theorems about those operations. What such a function makes of its input is
stated once more without it: by balances, rows, characters or numbers. Each transaction closure, each statement that
writes outside one, each call to the payment provider or the verifier, and each move of a pool's loop is one step;
other steps fall between them in any order. A payout handler's reads are steps one by one, a sign-in's lookup is a step
before its claim, and a decision's reads are one step before its transaction; minting a challenge and creating an
invoice are one step with their reads. A request to the payment provider may arrive late or more than once, whatever
became of its sender. A run is a finite sequence of steps from the empty system, and every theorem about runs holds for
all of them.

Five conditions on runs are used, each named where it is needed:

- `Pools.Disciplined`: the clock never passes the lease of an execution that is still live. It stands for start delay,
  handler budget (the lease less ten seconds) and finalising write together ending within the lease. `Delivery.OnLease`
  says it of a run of the whole system.
- `Protocol.Punctual`: a decision's transaction finds its invoice still pending, or changes nothing. Decisions whose
  reads and transaction are one step satisfy it (`FusedIsPunctual`). `StoryKeptIffPunctual` shows it is exactly what
  the status story needs, and `StaleApprovalOverridesReject` that the code has runs without it.
- `Veto.NoneOverrides`: no reject commits over a payout job and no approval completes its quorum over a reject. It is
  weaker than `Punctual` and exactly what keeps reject row and payout job apart.
- `Veto.NoneTrespasses`: no reject commits over a payment and no request for an invoice with a reject on file reaches
  the provider. It is weaker again (`NoneOverridesNeverPaysOver`, `LateRejectAloneIsHarmless`) and exactly what keeps
  reject and money apart.
- `TokenRuns.Ticking`: block timestamps are positive and never go back.

The payment theorems (`Payments`, `Entitlement`, `Attested`, `ProofWindow`, `Reread`, `Completion.PaidMeansPaid`,
`Completion.PaidFromOwnTreasury`, `Delivery.OpenPayoutCanComplete`) use none of them.

Where the code and its own comments part, the model follows the code:

- `approvals.go:203-204` promises that an approval and its payout cannot exist apart. They cannot on their own, but the
  pending check is made before the transaction: an approval read before a reject can commit after it and be paid, and a
  reject can commit too late to stop the payout (`StaleDecision`).
- `handlers.go:347-349` sees no window in which a proof is accepted but the approval is not. There is one: the proof is
  banked before the decision, and stays when the decision comes to nothing (`Attest`). The approver's next decision
  within the tier's window then needs no new proof (`BankedProofServesItsWindow`).
- `approvals.go:297-301` treats a duplicate job as a no-op. PostgreSQL aborts the transaction at the violation, so the
  audit insert after it fails and all of it rolls back. `conflictAborts` selects either reading, every theorem holds
  for both, and in punctual runs the branch is unreachable.
- A reject is gated with no proof age (`approvals.go:228`, `policy.go:155-158`), so under a tier that asks for a proof
  every reject is refused: `AttestedTierNeverRejects`.
- `FromBaseUnits` drops the sign strictly between minus one token and zero; `WriteThenRead` and `ReadThenWrite` say so.
- `queries.go:130` takes an address to be unique on each roster, but sign-ins match addresses without regard to case
  and a sync stores them as given: `SyncAndInviteMakeTwins`.
- `FreshAttestationAge` only returns ages inside the tier's window, so with one clock the gate's stale refusal never
  fires (`FreshAgeWithinWindow`); it takes time passing between query and gate.

## Model

| member | source | states |
|---|---|---|
| Payments.PaymentsExact | server/internal/service/payout.go:61-131 | in every run, stale decisions, crashes between send and mark, retries, overlapping workers and requests that arrive late or twice included: each payment carries an existing invoice's key, exact amount and payee and has its payout job; each wallet is debited by the sum of the invoices paid from it, and all wallets together by the sum of all paid invoices, each once |
| Payments.PaymentFinal | server/internal/service/payout.go:111-126 | a payment once made is never repeated or altered by any later step |
| Payments.QuorumBehindJob | server/internal/service/approvals.go:276-304 | every payout job was written by a transaction that ran on a snapshot read in that run and counted at least the approve rows its route required, at least one, and as many as its tier wants or as it lists people |
| Payments.QuorumBehindPayment | server/internal/service/approvals.go:276-304 | behind every payment stands such a transaction, and the distinct approvers it counted are still on file |
| Entitlement.DecisionsAreEntitled | server/internal/service/approvals.go:214-263 | in every run each decision on file is by somebody seated in a role of a tier that the rulebook selected for the invoice when the decision was read, and never by the submitter where that tier bars it |
| Entitlement.PaidByEntitledQuorum | server/internal/service/approvals.go:276-304 | separation of duties: every approval counted behind a payment is by somebody so named |
| Payments.StepSound | server/internal/service/payout.go:61-131 | the invariant behind these: one step of any kind keeps jobs, handler copies, transfers and the debit consistent |
| Completion.PaidMeansPaid | server/internal/service/payout.go:113-126 | outside demo mode an invoice whose status is paid has been paid in full to its payee |
| Completion.DoneMeansMarked | server/internal/service/payout.go:72-131 | in punctual runs a payout job that is done has its invoice marked paid |
| Completion.PaidFromOwnTreasury | server/internal/service/payout.go:88-119 | every payment left a wallet that was, at a point of that run, the treasury of the invoice's own organisation |
| Completion.OneHandlerPerPayout | server/internal/worker/worker.go:97-127 | in the whole system, under the lease discipline, no payout is handled by two executions at once |
| Delivery.OpenPayoutCanComplete | server/internal/queue/queue.go:132-151 | from every reachable state in which the payout job of an approved invoice with payee and treasury is pending or claimed, left behind by a crashed worker or waiting out a backoff included, some continuation pays and marks it |
| Delivery.ClosedPayoutNeverMarked | server/internal/queue/queue.go:172-199 | under the lease discipline an invoice left unpaid by a done or dead payout job is not marked in any continuation |
| Delivery.CanCompleteIffOpen | server/internal/service/payout.go:61-131 | so under that discipline an approved, payable invoice can still be paid and marked exactly while its payout job is pending or claimed |
| Attested.AttestedApprovalsBurnTheirOwnChallenge | server/internal/service/approvals.go:145-187 | outside demo mode approve rows under an attested tier map injectively to consumed nonces, each minted for that invoice and member and unexpired when burned, however consume, verify and insert interleave |
| Attested.AttestedRowsOnFile | server/internal/service/approvals.go:258-263 | those rows are on file as approvals and stay so |
| Decisions.JobIffApproved | server/internal/service/approvals.go:238-311 | a payout job exists exactly when the invoice is approved or paid; a reject row exactly when it is rejected |
| Decisions.NoDuplicatePayout | server/internal/service/approvals.go:293-303 | a transaction that finds its invoice pending never meets the duplicate branch |
| Decisions.StatusOnlyAdvances | server/internal/service/approvals.go:210-304 | status only moves from pending to approved to paid, or from pending to rejected; once it leaves pending no decision row is added |
| Decisions.RejectIsFinal | server/internal/service/approvals.go:265-274 | one reject vetoes every later payment |
| Decisions.StoryKeptIffPunctual | server/internal/service/approvals.go:205-312 | the tables agree and every invoice only advances exactly in the runs whose decisions come in time |
| Veto.VetoHoldsIffNoneOverrides | server/internal/service/approvals.go:238-304 | no invoice ever has both a reject row and a payout job in exactly the runs in which no reject commits over a payout job and no approval completes its quorum over a reject |
| Veto.NeverPaidOverIffNoneTrespasses | server/internal/service/payout.go:67-119 | no invoice is ever both rejected and paid in exactly the runs in which no reject commits over a payment and no request for an invoice with a reject on file reaches the provider |
| Veto.RejectedIsNeverPaid | server/internal/service/approvals.go:265-274 | sufficient for that, not necessary: where no decision overrides another a rejected invoice is never paid |
| Reread.SparedIffNeverReopened | server/internal/service/payout.go:67-81 | an invoice rejected before any handler has read it stays rejected and unpaid, whatever becomes of its payout job, exactly as long as no approval goes through on it again |
| Veto.PunctualNeverOverrides | server/internal/service/approvals.go:210-304 | decisions that come in time never override |
| StaleDecision.StaleApprovalOverridesReject | server/internal/service/approvals.go:206-263 | under every configuration there is a run that approves an invoice over a reject on file and writes its payout job |
| StaleDecision.StaleApprovalPaysOverReject | server/internal/service/approvals.go:206-304 | and wherever payouts run, one that goes on to pay it |
| StaleDecision.LateRejectAloneIsHarmless | server/internal/service/approvals.go:206-274 | a run in which a reject overrides an approved invoice and no money has moved: overriding is not yet paying |
| StaleDecision.StaleRejectComesTooLate | server/internal/service/payout.go:67-122 | and one in which a reject read before the approval commits after the payout handler has read the invoice, which ends rejected and paid |
| Protocol.FusedIsPunctual | server/internal/service/approvals.go:206-238 | a decision whose reads and transaction are one step always comes in time |
| Protocol.QueueRunsAreRuns | server/internal/queue/queue.go:89-113 | seen from the job table every run of the system is a run of the worker pools, so their theorems hold inside it |
| Progress.FixedRulesRouteAlike | server/internal/policy/policy.go:52-105 | fixed tiers with distinct active ceilings and a fixed roster route every decision alike, those under way included |
| Progress.QuorumExact | server/internal/service/approvals.go:276-291 | approved or paid invoices have exactly the required approvals, pending ones fewer, all by listed approvers |
| Progress.ApprovedByExactly | server/internal/policy/policy.go:74-82 | with fixed tiers and a fixed roster of distinct members an invoice is approved or paid only by as many listed people as its tier wants, at least one; by every one of them where it wants at least as many as there are; and never where nobody is listed |
| Progress.PendingHasSomebodyToAsk | server/internal/policy/policy.go:74-82 | a pending invoice with anybody eligible has an eligible approver who has not decided and whom the gate lets through given a fresh proof (pigeonhole over the clamp) |
| Progress.ApprovalsCountDown | server/internal/service/approvals.go:276-304 | each approval the gate allows brings the invoice exactly one closer, and the last one approves it |
| Resolution.CanBeApprovedIff | server/internal/service/approvals.go:145-304 | from every punctual state a pending invoice with distinct member ids and one routing can still be approved, by minting, burning, proving and deciding in time, exactly when that routing lists anybody and its proof window, if it asks for a proof, is not negative |
| Resolution.CanBePaidIff | server/internal/service/payout.go:61-131 | and, given payee and treasury, can still be approved, paid and marked under exactly that condition |
| Progress.AttestedTierNeverRejects | server/internal/policy/policy.go:155-158 | an invoice routed by a tier that asks for a proof never has a reject row |
| Approvals.Store.Decide | server/internal/service/approvals.go:205-312 | the whole call: its refusals exactly, otherwise the transaction on a snapshot read at that instant |
| Approvals.Store.DecideInTx | server/internal/service/approvals.go:238-310 | the closure changes the tables and answers as the decision function says, rollback included |
| Approvals.DecideTxFootprint | server/internal/service/approvals.go:238-310 | a decision changes at most its own row, its invoice's status and its invoice's payout job, each only in one way |
| Decisions.ApproveCommit | server/internal/service/approvals.go:276-304 | a first approval the gate lets through is recorded, and approves the invoice and writes its job exactly when it completes the required number |
| Decisions.ApprovalQueuesPayout | server/internal/service/approvals.go:293-304 | the job a completing approval writes is for that invoice, keyed by it, pending, due at once and allowed eight attempts |
| Decisions.AnswerIsTrue | server/internal/service/approvals.go:250-291 | the answer tells what was done: the gate's refusal with nothing changed, the rejection, the approvals now on file, the number required and whether they approved the invoice |
| Approvals.ApproversAfterRow | server/internal/store/queries.go:356-371 | a new approve row adds exactly its approver to the tally |
| Approvals.PayoutKeyInjective | server/internal/service/approvals.go:297-299 | payout keys tell invoices apart and never meet a notification's key |
| Approvals.Store.CreateInvoice | server/internal/service/approvals.go:61-132 | routes first, then row and notification commit together or not at all; succeeds exactly for a known submitter, an active tier and fresh keys; the payee is the one given unless it is missing or empty, then the submitter's wallet |
| Approvals.FirstNonEmpty | server/internal/service/approvals.go:321-328 | the first text that is there and not empty |
| Approvals.Store.CountApprovals | server/internal/store/queries.go:366-371 | the number of distinct approvers with an approve row |
| Approvals.Store.SetInvoiceStatus | server/internal/store/queries.go:316-319 | changes that invoice's status and nothing else |
| Approvals.Store.FindMember | server/internal/store/queries.go:74-76 | a seated member of that id, or none exactly when there is none |
| Payout.Payouts.HandlePayout | server/internal/service/payout.go:61-131 | by status, payee, treasury, provider answer and audit write: what is broadcast from which wallet to whom, what is marked, and whether the job succeeds; an invoice already paid or not awaiting payment succeeds and moves nothing, a missing payee or treasury fails and moves nothing |
| Payout.Payouts.SendTransaction | server/internal/privy/client.go:197-222 | a repeated key replays; a first one debits its amount once, also when the answer is lost; a request still on its way debits nothing yet |
| Payout.Payouts.MarkInvoicePaid | server/internal/store/queries.go:327-331 | marks that invoice paid and nothing else |
| WorldId.ProofDesk.RecordAttestation | server/internal/service/approvals.go:145-187 | the challenge is burned first whatever follows; a proof is banked exactly when challenge, target, verdict and uniqueness all hold, and the first that fails names the error |
| WorldId.ProofDesk.ConsumeChallenge | server/internal/store/queries.go:426-438 | burns an unconsumed, unexpired nonce once |
| WorldId.ProofDesk.CreateChallenge | server/internal/store/queries.go:414-420 | adds a fresh nonce or changes nothing |
| WorldId.FreshAttestationAge | server/internal/store/queries.go:395-410 | the age of the newest proof in the window, none exactly when there is none |
| WorldId.FreshAgeWithinWindow | server/internal/store/queries.go:395-410 | a returned age never exceeds the window |
| WorldId.SignalInjective | server/internal/worldid/worldid.go:135-137 | signals of colon-free invoice ids determine invoice and member, whatever the member id |
| WorldId.NewIdColonFree | server/internal/ids/ids.go:11-24 | generated ids are colon-free |
| WorldId.NewIdTellsBytes | server/internal/ids/ids.go:15-24 | an id is its prefix, an underscore and a character for each random byte; two ids are equal exactly when the bytes agree in their last five bits |
| Checkpoint.Server.Attest | server/internal/api/handlers.go:347-395 | when nothing runs and no time passes between recording and deciding: every outcome exactly. An invoice of another organisation is unknown and burns nothing; otherwise a valid challenge is burned whatever follows, the call fails exactly with the proof's refusal or the decision's, a proof once accepted is banked even if the decision comes to nothing, and the gate does not ask for another unless the tier's window is negative |
| ProofWindow.BankedProofServesItsWindow | server/internal/store/queries.go:395-410 | in every run, with any steps and any time in between, the last proof banked for an invoice and member is read fresh, and spares them another, exactly while no more than the tier's window has passed; afterwards the gate asks again |
| ProofWindow.StaysNewest | server/internal/store/queries.go:383-391 | a banked proof is never changed or removed and stays the newest until another is banked |
| ProofWindow.StepsRecord | server/internal/service/approvals.go:145-187 | the state machine's burn, verify and bank, one after another, change the two tables exactly as the whole call |
| Checkpoint.Server.WorldContext | server/internal/api/handlers.go:271-342 | a challenge exactly for a listed approver on a pending invoice of their own organisation under a fresh nonce; each refusal for its own reason |
| Checkpoint.Server.Eligible | server/internal/api/handlers.go:482-489 | whether the routing lists the member |
| Checkpoint.JustBankedIsFresh | server/internal/api/handlers.go:372-382 | a proof banked at an instant is inside every window reaching back to it |
| Policies.Select | server/internal/policy/policy.go:29-48 | least active ceiling covering the amount, else the greatest active ceiling; refuses exactly when no tier is active |
| Policies.KeepActive | server/internal/policy/policy.go:30-35 | the active tiers in their order |
| Sorting.Sort | server/internal/policy/policy.go:40 | sorts any array in place by any total order, keeping its elements |
| Policies.SortByCeiling | server/internal/policy/policy.go:40 | an in-place permutation in ascending ceilings |
| Policies.Scan | server/internal/policy/policy.go:42-47 | on sorted ceilings, the covering minimum or the maximum |
| Policies.SelectMonotone | server/internal/policy/policy.go:27-48 | a larger amount never lands on a lower ceiling |
| Policies.BandsSelect | server/internal/policy/policy.go:40-47 | tiers with rising ceilings split the amounts into bands: a tier is chosen exactly above the ceiling before it and up to its own, the last one also beyond |
| Policies.SelectOrderFree | server/internal/policy/policy.go:40-48 | with distinct active ceilings the tier does not depend on the order of the tiers |
| Policies.Route | server/internal/policy/policy.go:52-105 | the selected tier, its eligible members in roster order, and the clamped quorum |
| Policies.EligibleCounts | server/internal/policy/policy.go:58-72 | the route lists everybody in one of the tier's roles exactly as often as the roster does, except a submitter whose own approval the tier bars, and nobody else |
| Policies.Quorum | server/internal/policy/policy.go:74-82 | what the tier wants, but at least one and at most the number available: a tier that wants at least everybody requires everybody; with nobody available what it wants, at least one |
| Policies.RouteUnique | server/internal/policy/policy.go:52-105 | with distinct active ceilings an invoice has one route |
| Policies.Gate | server/internal/policy/policy.go:135-165 | the first failing check names the refusal |
| Policies.GateOpens | server/internal/policy/policy.go:135-165 | on a routed invoice the gate opens exactly for somebody seated in one of the tier's roles, not barred as the submitter, who has not decided and has a fresh proof where the tier asks for one; a barred submitter and a second decision are refused as such |
| Queue.JobTable.EnqueueTx | server/internal/queue/queue.go:91-113 | a fresh key gets a pending row, never attempted, due at the time asked for or at once, with the attempts asked for or eight; a known key is a duplicate and changes nothing |
| Queue.JobTable.Claim | server/internal/queue/queue.go:132-170 | leases up to n runnable rows, oldest first, skipping locked ones: one attempt more, this worker, the lease in whole seconds; returns them as updated and touches no other row |
| Queue.JobTable.Select | server/internal/queue/queue.go:141-151 | as many runnable rows as asked for or as there are, none younger than one left behind |
| Queue.JobTable.Complete | server/internal/queue/queue.go:172-176 | marks the row done, whoever holds it |
| Queue.JobTable.Reschedule | server/internal/queue/queue.go:181-188 | back to pending at whole seconds, one attempt returned but never below zero |
| Queue.JobTable.Fail | server/internal/queue/queue.go:192-207 | dead once the caller's attempts reach its limit, otherwise pending after the backoff |
| Queue.Backoff | server/internal/queue/queue.go:214-234 | the capped exponential envelope, jittered |
| Queue.Jittered | server/internal/queue/queue.go:226-233 | the delay lies between a quarter of the envelope rounded down and the envelope |
| Queue.JitterReaches | server/internal/queue/queue.go:226-233 | and every whole delay in that range is some draw's |
| Queue.SecondsWithin | server/internal/queue/queue.go:181-188 | delays and leases are cut to whole seconds, towards zero |
| Queue.EnvelopeGrows | server/internal/queue/queue.go:215-224 | the envelope starts at the base, doubles with every attempt, is the exact minimum of that and the cap for every attempt number, and never decreases |
| Queue.RunnableAgain | server/internal/queue/queue.go:140-207 | when each ending lets the job run again: never, between a quarter and all of the backoff, after whole seconds, or once a lease has run out |
| Worker.WorkerPool.Tick | server/internal/worker/worker.go:70-92 | claims no more than the free slots; every claimed job starts at once and no send on the semaphore blocks |
| Worker.WorkerPool.Start | server/internal/worker/worker.go:84-92 | exactly one goroutine per claimed job, the others untouched |
| Worker.WorkerPool.Finalise | server/internal/worker/worker.go:100-146 | the row becomes done exactly when the kind is handled and the handler returned; dead with the cause at once for an unknown kind, and on an error or a panic when the worker's attempts reach the limit; otherwise pending, after a failure due between a quarter and all of the doubled and capped backoff with its cause, after an asked delay due in that many whole seconds with one attempt given back; no other row changes |
| Worker.WorkerPool.Finish | server/internal/worker/worker.go:97-147 | gives the slot back and leaves the row so, or untouched where the statement did not reach the database; in both cases exactly as the pools machine does for that result |
| PoolLeases.PoolsStayBounded | server/internal/worker/worker.go:70-92 | under any crashes no pool runs more than its concurrency, and one about to start a job finds a free slot |
| PoolLeases.OneExecutionPerJob | server/internal/worker/worker.go:70-127 | under the lease discipline a job never has two live executions |
| PoolLeases.FinishedJobsStay | server/internal/queue/queue.go:172-207 | done and dead are absorbing |
| PoolLeases.AttemptsAccounted | server/internal/queue/queue.go:132-207 | attempts are claims minus reschedules; an attempt number counts only earlier failures and lost leases, however often the job was rescheduled; a handled job never records more failures than its limit |
| PoolLeases.DeadOnlyWhenExhausted | server/internal/queue/queue.go:192-199 | a handled job goes dead exactly on a failure that brings failures and lost leases to the limit |
| PoolLeases.StepExclusive | server/internal/queue/queue.go:132-207 | the invariant behind these: every timely step keeps one current holder per leased row and the account of its claims |
| PoolSafety.StepSlotted | server/internal/worker/worker.go:54-95 | every step, crashes and lost claims included, keeps semaphore, running and reserved slots within the concurrency |
| JsonRoundTrip.RoundTrip | server/internal/privy/canonical.go:45-94 | reading the printed text gives the value back without its null members, at every depth |
| JsonRoundTrip.PrintStrips | server/internal/privy/canonical.go:49-54 | removing the null members first changes no byte |
| JsonRoundTrip.PrintIdentifies | server/internal/privy/canonical.go:45-94 | two values print alike exactly when they agree up to null members |
| JsonRoundTrip.ObjectReadsMemberwise | server/internal/privy/canonical.go:47-72 | an object's text reads as an object with exactly its members that are not null, each as its own text reads |
| JsonRoundTrip.ArrayReadsItemwise | server/internal/privy/canonical.go:74-84 | an array's text reads as an array of as many items, nulls included, each as its own text reads |
| JsonRoundTrip.ScalarReadsAsItself | server/internal/privy/canonical.go:86-92 | every other value reads as itself |
| Json.KeysComeInOrder | server/internal/privy/canonical.go:49-66 | an object prints the keys of its members that are not null in the one order in which each comes before the next: as a proper prefix, or by the smaller character where they first differ |
| Json.MembersJoined | server/internal/privy/canonical.go:57-72 | the members' text is one key, colon and value for each, with commas between them |
| Json.EscapesExactly | server/internal/privy/canonical.go:35-43 | quote, backslash, control characters and the two line separators are escaped, each in its one way; every other character, HTML ones included, is printed as it is |
| JsonWriter.CanonicalJson | server/internal/privy/canonical.go:15-33 | the writer's output is that text |
| JsonWriter.Write | server/internal/privy/canonical.go:45-94 | appends exactly the canonical text, whichever order maps are walked in |
| JsonWriter.WriteObject | server/internal/privy/canonical.go:47-72 | members in key order, each key before the next by first difference, with their commas, nulls left out |
| JsonWriter.WriteArray | server/internal/privy/canonical.go:74-84 | items in order with their commas |
| JsonWriter.CollectKeys | server/internal/privy/canonical.go:48-54 | the keys that are not null-valued, each once, in any order |
| StringOrder.SortStrings | server/internal/privy/canonical.go:55 | sorts in place, keeping the keys and their distinctness |
| StringOrder.AscendingIsSorted | server/internal/privy/canonical.go:55 | an ascending arrangement of a key set is unique |
| StringOrder.OrderIsFirstDifference | server/internal/privy/canonical.go:55 | the order is equality, proper prefix, or the smaller character at the first difference |
| StringOrder.SmallerCharFirst | server/internal/privy/canonical.go:55 | of two texts that first differ in one character the one with the smaller comes before the other, and not after it, whatever follows |
| StringOrder.PrefixFirst | server/internal/privy/canonical.go:55 | a text comes before every longer one that begins with it, and not after it |
| Sign.SignedBytes | server/internal/privy/sign.go:30-46 | the signed bytes are the canonical payload, headers laid over the app id |
| Sign.PayloadText | server/internal/privy/sign.go:36-47 | the signed text in full: body unless null, headers, upper-cased method, URL, version one, in that order |
| Sign.CallHeadersText | server/internal/privy/client.go:76-90 | a call's signed headers in full: app id, then the idempotency key when there is one |
| Sign.HeadersOverride | server/internal/privy/sign.go:31-34 | every header sent is signed as it is, and the app id besides unless a header of that name takes its place |
| Domain.CaseFolds | server/internal/privy/sign.go:38 | upper- and lower-casing take an ASCII letter to the one in its place in the other alphabet and leave every other character |
| Sign.PayloadIdentifiesRequest | server/internal/privy/sign.go:30-46 | two payloads are byte-equal exactly when upper-cased method, URL, body and signed headers agree up to null members |
| Sign.CallIdentifiesRequest | server/internal/privy/client.go:76-90 | two signed calls are byte-equal exactly when upper-cased method, URL, app id, idempotency key and body up to null members agree |
| Money.ToBaseUnits | server/internal/money/money.go:18-45 | the statements compute the parse, error cases included |
| Money.ReadsExactly | server/internal/money/money.go:18-45 | a decimal of at most six places parses to its base units, one with more is refused |
| Money.UnitsExact | server/internal/money/money.go:16-18 | those base units are the decimal times a million, without rounding |
| Money.WriteThenRead | server/internal/money/money.go:47-55 | writing then parsing gives n back exactly when n is at least 0 or at most minus 1000000; in between the sign is lost |
| Money.ReadThenWrite | server/internal/money/money.go:47-55 | parsing then writing gives the decimal without redundant zeros exactly when it is not a negative fraction of one token |
| Money.WritesPlainly | server/internal/money/money.go:47-55 | what is written has no redundant zero, at most six places and the magnitude of the amount, and a minus exactly from one token below zero on |
| Money.AmountsAreRead | server/internal/money/money.go:18-45 | an optional minus, an optional sign, digits and up to six more after a point, either group possibly missing, with blanks around, reads as its base units |
| Money.OnlyAmountsAreRead | server/internal/money/money.go:18-45 | nothing else is accepted |
| Money.RefusalsTell | server/internal/money/money.go:18-45 | and each refusal has its own reason: empty, more than six places, or no such amount |
| Calldata.CalldataRoundTrip | server/internal/privy/client.go:240-245 | for an address and a 256-bit amount: 138 characters that decode to that address and amount |
| Calldata.CalldataInjective | server/internal/privy/client.go:240-245 | equal calldata means equal payee and amount |
| Calldata.AddressForms | server/internal/privy/client.go:241 | an address is forty hexadecimal digits of either case, with or without 0x before them |
| Calldata.CalldataSpells | server/internal/privy/client.go:240-245 | the selector, twenty-four zeros, the payee's digits position by position in lower case, and a word that spells the amount; it decodes to the account the digits spell in base sixteen |
| Calldata.CalldataTellsAccounts | server/internal/privy/client.go:240-245 | two transfers have equal calldata exactly when their payees' digits spell one account and the amounts are equal |
| Allowlist.TreasuryRules | server/internal/privy/policy.go:49-85 | one rule holding the token, the cap if any and the payees if any |
| Allowlist.Recipients | server/internal/service/wallets.go:130-144 | every member wallet once, ascending |
| Allowlist.SyncPayeeAllowlist | server/internal/service/wallets.go:130-156 | no rules exactly when nobody has a wallet; otherwise rules permitting exactly the allowed transfers |
| Allowlist.RuleMeaning | server/internal/privy/policy.go:44-85 | the conditions, ANDed in the one rule, permit exactly: token, amount within the cap, payee on the roster |
| Allowlist.PayoutPermitted | server/internal/service/wallets.go:130-156 | a payout's own calldata is permitted exactly when token, cap and payee match |
| Allowlist.SameAddressSpells | server/internal/privy/policy.go:58-85 | two written addresses match exactly when their digits spell one account |
| Settlement.AmountTextExact | server/internal/service/payout.go:106-109 | the text has whole tokens, a point and exactly six digits that amount to the base units, and parsing gives every amount back |
| Settlement.AccountIsSpelled | server/internal/privy/client.go:241 | the account a payout goes to is the number the payee's forty digits spell, in either case |
| Settlement.PayoutSettles | server/internal/service/payout.go:106-119 | the token reads a payout's transaction as a transfer of exactly the amount to exactly the account the payee's forty digits spell, executes it exactly when the treasury can cover it, and moves nothing else |
| Token.QuorlyUSD.Deploy | contracts/src/QuorlyUSD.sol:52-56 | a zero owner reverts; otherwise the supply is minted to the owner |
| Token.QuorlyUSD.Execute | contracts/src/QuorlyUSD.sol:60-124 | every external call takes its effect whole or reverts with its error and changes nothing |
| Token.QuorlyUSD.TransferInternal | contracts/src/QuorlyUSD.sol:128-137 | debit and credit in the order written, wrapping, so that a self-transfer reads its own debit |
| Token.QuorlyUSD.MintInternal | contracts/src/QuorlyUSD.sol:139-145 | checked supply, unchecked balance |
| Token.QuorlyUSD.DripInternal | contracts/src/QuorlyUSD.sol:95-103 | cooldown, timestamp and mint |
| Token.QuorlyUSD.SpendInternal | contracts/src/QuorlyUSD.sol:71-79 | a finite allowance is drawn down before the transfer, an infinite one is not |
| Token.QuorlyUSD.DripAvailableIn | contracts/src/QuorlyUSD.sol:106-111 | the wait, or the panic of its checked sum |
| TokenRuns.SupplyConserved | contracts/src/QuorlyUSD.sol:128-145 | after every call history balances sum to the supply, which fits a word, and each balance is what the Transfer events add up to in unbounded integers |
| TokenRuns.CallTakesEffect | contracts/src/QuorlyUSD.sol:60-124 | after any history, every successful call moves exactly these balances: transfer from its sender, transferFrom from the holder whoever sends it, each by the value and to the account named; mint credits the account named, the faucet its caller or the account named with 10000 tokens; only a transfer of ownership changes the owner, to the one it names |
| TokenRuns.CallSucceedsExactly | contracts/src/QuorlyUSD.sol:60-124 | exactly when each call goes through: receiver not zero, the paying account's balance, an infinite or sufficient allowance, the owner, an hour's rest, room in the supply |
| TokenRuns.RefusalIsTrue | contracts/src/QuorlyUSD.sol:60-124 | whatever error a call reverts with holds of it |
| TokenRuns.CallIsLogged | contracts/src/QuorlyUSD.sol:60-145 | every successful call emits exactly the events of what it did |
| TokenRuns.OnlyConsentDebits | contracts/src/QuorlyUSD.sol:60-79 | nobody's balance falls but by their own transfer or by a transferFrom within what they allowed its sender |
| TokenRuns.DeployedState | contracts/src/QuorlyUSD.sol:52-56 | a deployment gives the whole supply and the ownership to the owner it names, and nobody an allowance or a drip |
| TokenRuns.AllowanceStep | contracts/src/QuorlyUSD.sol:65-79 | an allowance changes only by its holder's approve, to the value, or by its spender's transferFrom, down by the value unless infinite |
| TokenRuns.SupplyAccounted | contracts/src/QuorlyUSD.sol:95-145 | the supply is the initial one plus what owners minted plus the fixed amount for every faucet pull |
| TokenRuns.UncheckedStaysInRange | contracts/src/QuorlyUSD.sol:132-143 | neither unchecked block wraps in the call that comes next |
| TokenRuns.MovedExactly | contracts/src/QuorlyUSD.sol:128-137 | a transfer moves exactly its value between exactly two balances, self-transfers included |
| TokenRuns.MintedExactly | contracts/src/QuorlyUSD.sol:139-145 | a mint adds exactly its value to one balance and to the supply |
| TokenRuns.AllowanceAccounted | contracts/src/QuorlyUSD.sol:65-79 | a finite allowance plus everything moved through it since the last approve is the approved value; an infinite one stays |
| TokenRuns.DripsAreSpaced | contracts/src/QuorlyUSD.sol:95-103 | with positive, non-decreasing timestamps k drips to one account span at least k - 1 hours, between any two of them |
| TokenRuns.LastDripIsLatest | contracts/src/QuorlyUSD.sol:95-103 | the recorded timestamp is that of the latest drip that went through |
| TokenRuns.WaitIsTheCooldown | contracts/src/QuorlyUSD.sol:95-111 | the cooldown check passes exactly when the wait is zero; the wait counts down by the second and is what a refusal announces |
| TokenRuns.FaucetPays | contracts/src/QuorlyUSD.sol:84-103 | a faucet call succeeds exactly when the wait is zero and the supply has room |
| Seats.MemberTable.InviteMember | server/internal/store/queries.go:586-599 | a lower-cased address not yet on that roster gets a vacant seat; otherwise it is refused and nothing changes |
| Seats.MemberTable.ClaimMemberSeat | server/internal/store/queries.go:137-153 | takes the least vacant seat for the address by role rank, creation time and id, setting holder and wallet and nothing else; refuses without a change when there is none or when the identity holds a seat |
| Seats.MemberTable.PickSeat | server/internal/store/queries.go:140-149 | that least seat, or none exactly when none is vacant |
| Seats.MemberTable.MemberByPrivyID | server/internal/store/queries.go:78-81 | the seat an identity holds, or none |
| Seats.MemberTable.RemoveMember | server/internal/store/queries.go:603-612 | removes a seat of that organisation that nothing refers to |
| Seats.MemberTable.AuthSync | server/internal/api/handlers.go:47-112 | when nothing runs between lookup and claim: a holder gets their own seat and changes nothing; anybody else claims one or is told that there is none |
| Seats.BestVacantUnique | server/internal/store/queries.go:143-147 | the order leaves no tie |
| Seats.MostPrivilegedSeatWins | server/internal/store/queries.go:143-147 | an owner's seat goes before any other, an approver's before the rest; among equals the older one, then the lesser id |
| SeatRuns.OneSeatEach | server/internal/store/queries.go:127-153 | over all invitations, syncs, interleaved sign-ins, role and wallet changes and removals no identity holds two seats |
| SeatRuns.HeldSeatStays | server/internal/store/queries.go:127-153 | a held seat keeps its holder, organisation and address until it is removed |
| SeatRuns.IndexRefusesExactly | server/internal/api/handlers.go:54-99 | the unique index refuses a sign-in's claim exactly when its identity came to hold a seat between its lookup and its claim |
| SeatRuns.OverlappingSignInRefused | server/internal/api/handlers.go:54-99 | it does so in a run with two sign-ins of one identity and two vacancies |
| SeatRuns.AddressesUniqueIffNew | server/internal/store/queries.go:114-136 | an address, in whatever case, has at most one seat on a roster throughout exactly the runs in which no sync inserts an address already on that roster up to case and no invitation meets a row differing only in case |
| SeatRuns.SyncAndInviteMakeTwins | server/internal/store/queries.go:586-599 | a run that puts one address on one roster twice, both seats vacant to it |

## Left out

- The web app, the Slack surface, the assistant, extraction, configuration, command line and deployment scripts: user interface and third-party calls.
- HTTP, ECDSA, SHA-256, JWT and HPKE: the payment provider is a ledger that replays a repeated key, the verifier an answer, a signature the bytes it covers.
- A decision's five reads are one step, as are the reads of `CreateInvoice` and `WorldContext` with their writes; a roster edited between them is not modelled.
- Transactions are serial, statements outside them atomic; PostgreSQL's locking and isolation levels are not modelled. Under interleaved uncommitted reads two approvers could each count only themselves.
- Goroutines, channels and waiting are steps of a state machine (`Pools`) or calls one after another (`WorkerPool`); draining on shutdown is a crash like any other.
- Clock readings, random bytes, random draws, provider answers, verdicts and failed writes are parameters. Application and database share one clock, in whole milliseconds.
- Tables are maps keyed by what identifies a row: the serial job id, the ids of decision and attestation rows and columns nothing reads are dropped, and JSON payloads are the invoice id they carry. Rows of an organisation are one `Rules` value, replaced whole by any administration.
- The audit log: only that its last write can fail after an invoice is marked paid, which makes the job retry.
- Floats: amounts are whole base units, so `ParseFloat` and the rounding of `%.6f` are not modelled; `USD` is left out.
- Backoff: computed in exact integers for every attempt number; the rounding of `math.Pow` and the conversion of a float beyond 64 bits are not modelled.
- Jittered: the random source contributes a residue only; its distribution is not modelled.
- Claim: rows with equal due times come in any order, as the query leaves them; `max_attempts` is not tested by the query and so not by the model.
- Finish: the registered handlers never ask to be rescheduled, so in `Protocol` they do not either; `Pools` and `WorkerPool` allow it.
- SortByCeiling: equal ceilings keep no particular order, as with `sort.Slice`; `SelectOrderFree` and `RouteUnique` therefore ask for distinct ceilings.
- Route: the reason text is left out.
- HandlePayout: unmarshalling the payload and the announcement are left out; `Settlement` covers the conversion of the amount and the calldata.
- CreateInvoice: number, description, file and due date are left out, and so is `required_approvals`, which no decision reads.
- Decide: `attestation_id` is never assigned, so a proof is tied to an approval by its signal alone.
- RecordAttestation: the proof's kind, level and raw body are left out.
- ToBaseUnits: length is counted in characters where the source counts bytes; on a fraction of other than ASCII characters the two may refuse with different errors.
- RoundTrip: the reader knows no insignificant whitespace and no surrogate pairs, which the printer never emits; strings hold code points, so invalid UTF-8 does not occur; normalising structs into maps before writing is left out.
- AscendingIsSorted: order is by code point, which is byte order in UTF-8.
- CaseFolds: letters are ASCII letters only.
- CallIdentifiesRequest: upper-casing is ASCII; a call whose body is missing signs an empty object, which is the caller's business here.
- SyncPayeeAllowlist: the returns for an organisation without a treasury wallet or policy, and the request that installs the rules, are left out; the enclave's reading of a rule is the one `TreasuryRules` relies on.
- TreasuryRules: rule name and ABI fragment are left out.
- Execute: gas, reentrancy and calls from other contracts do not arise in this token; the events are kept as a log in its storage.
- AuthSync: wallet provisioning after a sign-in is left out; a claim may overwrite the wallet address, as in the source.
- PickSeat: ids are compared by code point, where the database uses its collation.
- InviteMember: `Lower` folds ASCII letters only, where PostgreSQL's `lower()` folds by the database's locale; so do the comparisons of addresses in `ClaimMemberSeat`.
- AddressesUniqueIffNew: "up to case" is up to the case of ASCII letters, for the same reason, as in `SyncAndInviteMakeTwins` and `BestVacant`.
- CanBeApprovedIff: asks for decisions in time and one routing on the way; what late decisions or edited tiers could still bring about is not said.
- RemoveMember: whether other rows refer to the member is a parameter.
