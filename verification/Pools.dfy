/** Worker pools draining the job table.

    Every SQL statement, every send on and receive from a pool's semaphore, and
    every crash is one step. An execution is named by its ticket: the job's key
    and which claim of that job it came from. */
module Pools {
  import opened Queue

  datatype Config = Config(
    lease: nat,
    concurrency: nat,
    baseBackoff: int,
    maxBackoff: int,
    handled: set<string>)

  type Ticket = (string, nat)

  /** The worker's own copy of a claimed job. */
  datatype Execution = Execution(pool: string, attempts: int, maxAttempts: int, leasedUntil: int)

  /** Where the polling loop of a pool stands. */
  datatype Loop = Idle | HasCapacity(n: nat) | Starting(batch: set<Ticket>)

  /** `sem` is the length of the semaphore channel; `ending` counts goroutines that
      have finalised their job and not yet released their slot. */
  datatype Pool = Pool(loop: Loop, sem: nat, running: set<Ticket>, ending: nat) {
    function Batch(): set<Ticket> {
      if loop.Starting? then loop.batch else {}
    }
    function Reserved(): nat {
      if loop.HasCapacity? then loop.n else |Batch()|
    }
  }

  /** What happened to a job so far; no column holds this. */
  datatype Tally = Tally(claims: nat, reschedules: nat, failures: nat, lost: nat)

  /** `live` holds the executions that have neither finalised nor crashed, whether
      running or still waiting for their slot. */
  datatype State = State(
    now: int,
    jobs: Table,
    pools: map<string, Pool>,
    live: map<Ticket, Execution>,
    tallies: map<string, Tally>)

  const INITIAL: State := State(0, map[], map[], map[], map[])

  function TallyOf(s: State, k: string): Tally {
    if k in s.tallies then s.tallies[k] else Tally(0, 0, 0, 0)
  }

  /** How one execution ends: the three cases of a handler's result (a panic is a
      failure), the missing handler, or a finalising write that did not happen. */
  datatype Outcome =
    | Succeeded
    | RetryLater(delay: int)
    | Errored(draw: nat, cause: string)
    | NoHandler
    | WriteLost

  datatype Step =
    | Tick(t: int)
    | Enqueue(p: EnqueueParams)
    | Boot(pool: string)
    | Poll(pool: string)
    | Claim(pool: string, locked: set<string>, picked: set<string>)
    | ClaimLost(pool: string, locked: set<string>, picked: set<string>)
    | Begin(pool: string, e: Ticket)
    | Finish(e: Ticket, outcome: Outcome)
    | Release(pool: string)
    | Crash(pool: string)

  ghost predicate Enabled(c: Config, s: State, a: Step) {
    match a
    case Tick(t) => s.now <= t
    case Enqueue(p) => p.key !in s.jobs && p.maxAttempts >= 0
    case Boot(p) => p !in s.pools
    case Poll(p) => p in s.pools && s.pools[p].loop.Idle?
    case Claim(p, locked, picked) =>
      p in s.pools && s.pools[p].loop.HasCapacity? &&
      ClaimPicks(s.jobs, s.now, s.pools[p].loop.n, locked, picked)
    case ClaimLost(p, locked, picked) =>
      p in s.pools && s.pools[p].loop.HasCapacity? &&
      (picked == {} || ClaimPicks(s.jobs, s.now, s.pools[p].loop.n, locked, picked))
    case Begin(p, e) =>
      p in s.pools && e in s.pools[p].Batch() && s.pools[p].sem < c.concurrency
    case Finish(e, outcome) =>
      e in s.live && e.0 in s.jobs && s.live[e].pool in s.pools && e in s.pools[s.live[e].pool].running &&
      (s.jobs[e.0].kind in c.handled ==> outcome != NoHandler) &&
      (s.jobs[e.0].kind !in c.handled ==> outcome in {NoHandler, WriteLost})
    case Release(p) => p in s.pools && s.pools[p].ending > 0 && s.pools[p].sem > 0
    case Crash(p) => p in s.pools
  }

  function TicketOf(s: State, k: string): Ticket {
    (k, TallyOf(s, k).claims + 1)
  }

  function Tickets(s: State, picked: set<string>): set<Ticket> {
    set k | k in picked :: TicketOf(s, k)
  }

  function Remaining(batch: set<Ticket>): Loop {
    if batch == {} then Idle else Starting(batch)
  }

  /** The table and the tallies after a claim commits. */
  function Leased(c: Config, s: State, p: string, picked: set<string>): State {
    s.(jobs := ClaimedRows(s.jobs, p, s.now + WholeSeconds(c.lease), picked),
       tallies := s.tallies + map k | k in picked && k in s.jobs ::
         var t := TallyOf(s, k);
         t.(claims := t.claims + 1,
            lost := if s.jobs[k].status == Claimed then t.lost + 1 else t.lost))
  }

  function UnknownKind(kind: string): string {
    "no handler for kind \"" + kind + "\""
  }

  /** The row an ending leaves; `attempts` and `maxAttempts` are the worker's copy. */
  function FinalRow(j: Job, now: int, base: int, cap: int, attempts: int, maxAttempts: int, outcome: Outcome): Job {
    match outcome
    case Succeeded => CompletedRow(j)
    case RetryLater(delay) => RescheduledRow(j, now, delay)
    case Errored(draw, cause) =>
      FailedRow(j, now, attempts, maxAttempts, Jittered(Envelope(base, cap, attempts), draw), cause)
    case NoHandler => DeadRow(j, UnknownKind(j.kind))
    case WriteLost => j
  }

  function FinalTally(t: Tally, outcome: Outcome): Tally {
    match outcome
    case RetryLater(_) => t.(reschedules := t.reschedules + 1)
    case Errored(_, _) => t.(failures := t.failures + 1)
    case NoHandler => t.(failures := t.failures + 1)
    case _ => t
  }

  function Finalised(c: Config, s: State, e: Ticket, outcome: Outcome): State
    requires e in s.live && e.0 in s.jobs
  {
    var x := s.live[e];
    var row := FinalRow(s.jobs[e.0], s.now, c.baseBackoff, c.maxBackoff, x.attempts, x.maxAttempts, outcome);
    s.(jobs := s.jobs[e.0 := row],
       tallies := s.tallies[e.0 := FinalTally(TallyOf(s, e.0), outcome)])
  }

  function Booted(s: State, p: string): State {
    s.(pools := s.pools[p := Pool(Idle, 0, {}, 0)])
  }

  function Polled(c: Config, s: State, p: string): State
    requires p in s.pools
  {
    var pool := s.pools[p];
    if c.concurrency - pool.sem <= 0 then s
    else s.(pools := s.pools[p := pool.(loop := HasCapacity(c.concurrency - pool.sem))])
  }

  function NewExecutions(c: Config, s: State, p: string, picked: set<string>): map<Ticket, Execution> {
    map k | k in picked && k in s.jobs ::
      TicketOf(s, k) := Execution(p, s.jobs[k].attempts + 1, s.jobs[k].maxAttempts, s.now + WholeSeconds(c.lease))
  }

  function ClaimTaken(c: Config, s: State, p: string, picked: set<string>): State
    requires p in s.pools
  {
    Leased(c, s, p, picked).(
      pools := s.pools[p := s.pools[p].(loop := Remaining(Tickets(s, picked)))],
      live := s.live + NewExecutions(c, s, p, picked))
  }

  function ClaimDropped(c: Config, s: State, p: string, picked: set<string>): State
    requires p in s.pools
  {
    Leased(c, s, p, picked).(pools := s.pools[p := s.pools[p].(loop := Idle)])
  }

  function Begun(s: State, p: string, e: Ticket): State
    requires p in s.pools
  {
    var pool := s.pools[p];
    s.(pools := s.pools[p := Pool(Remaining(pool.Batch() - {e}), pool.sem + 1, pool.running + {e}, pool.ending)])
  }

  function Finished(c: Config, s: State, e: Ticket, outcome: Outcome): State
    requires e in s.live && e.0 in s.jobs && s.live[e].pool in s.pools
  {
    var p := s.live[e].pool;
    var pool := s.pools[p];
    Finalised(c, s, e, outcome).(
      pools := s.pools[p := pool.(running := pool.running - {e}, ending := pool.ending + 1)],
      live := s.live - {e})
  }

  function Released(s: State, p: string): State
    requires p in s.pools && s.pools[p].ending > 0 && s.pools[p].sem > 0
  {
    var pool := s.pools[p];
    s.(pools := s.pools[p := pool.(sem := pool.sem - 1, ending := pool.ending - 1)])
  }

  function Crashed(s: State, p: string): State {
    s.(pools := s.pools - {p},
       live := map e | e in s.live && s.live[e].pool != p :: s.live[e])
  }

  ghost function Apply(c: Config, s: State, a: Step): State
    requires Enabled(c, s, a)
  {
    match a
    case Tick(t) => s.(now := t)
    case Enqueue(p) => s.(jobs := s.jobs[p.key := NewRow(s.now, p)])
    case Boot(p) => Booted(s, p)
    case Poll(p) => Polled(c, s, p)
    case Claim(p, _, picked) => ClaimTaken(c, s, p, picked)
    case ClaimLost(p, _, picked) => ClaimDropped(c, s, p, picked)
    case Begin(p, e) => Begun(s, p, e)
    case Finish(e, outcome) => Finished(c, s, e, outcome)
    case Release(p) => Released(s, p)
    case Crash(p) => Crashed(s, p)
  }

  /* ------------------------------------------------------------------ runs */

  datatype Run = Start | Then(prior: Run, step: Step)

  ghost predicate Legal(c: Config, r: Run)
    decreases r, 0
  {
    r.Then? ==> Legal(c, r.prior) && Enabled(c, After(c, r.prior), r.step)
  }

  ghost function After(c: Config, r: Run): State
    requires Legal(c, r)
    decreases r, 1
  {
    if r.Start? then INITIAL else Apply(c, After(c, r.prior), r.step)
  }

  /** `q` is `r` or one of its prefixes. */
  ghost predicate Within(q: Run, r: Run) {
    q == r || (r.Then? && Within(q, r.prior))
  }

  /** The lease discipline: start delay, handler budget and finalising write of an
      execution together end no later than its lease, so the clock never passes the
      lease of an execution that is still live. */
  ghost predicate Disciplined(c: Config, r: Run)
    requires Legal(c, r)
  {
    r.Then? ==>
      && Disciplined(c, r.prior)
      && (r.step.Tick? ==> OnTime(After(c, r.prior), r.step.t))
  }

  ghost predicate OnTime(s: State, t: int) {
    forall e | e in s.live :: t <= s.live[e].leasedUntil
  }
}
