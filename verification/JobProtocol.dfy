/**
 * `BidirectionalService.run` as a step machine. Many jobs share the pool; code between two
 * awaits is one atomic step, and what an await yields (an RPC result, a timeout, a throw) is
 * part of the event. Each worker's address has an abstract account on the chain: the ledger of
 * mined transactions, whose length is the `latest` transaction count, and the transactions a
 * node has accepted that may still be mined.
 */
module JobProtocol {
  import opened Options
  import opened PoolModel

  type JobId = nat

  // ------------------------------------------------------------------ state

  /** Why `run` rejects: the class of error its caller sees. */
  datatype Cause = ShuttingDown | NoWorker(reason: Reason) | Unanticipated

  /** Where a job is suspended. */
  datatype Phase =
    | Deriving                                        // ensureAddresses
    | Sweeping                                        // reconcileQuarantined
    | Refreshing(at: Place)                           // refreshUnderfunded, reading this worker's balance
    | AwaitingLease                                   // acquireWithin
    | CheckingBalance                                 // getBalance
    | ReadingNonce(balance: nat)                      // buildTransaction: count and fees
    | Estimating(balance: nat, nonce: nat)            // buildTransaction: estimateGas
    | Instructing(nonce: nat)                         // buildSignBidirectionalInstruction
    | SendingRequest(nonce: nat)                      // sendAndConfirm on Solana
    | AwaitingSignature(nonce: nat)
    | Attaching(nonce: nat)                           // attachSignature
    | Broadcasting(nonce: nat, accepted: bool)        // sendRawTransaction
    | Confirming(nonce: nat)                          // waitForTransactionReceipt
    | AwaitingRespond
    | Throwing(cause: Cause)                          // rejected; start's catch has not run yet
    | Ended

  /** One call of `run`: its suspension point and its local variables. */
  datatype Proc = Proc(phase: Phase, ticket: Option<Ticket>, worker: Option<Place>, released: bool, aborted: bool)

  datatype Tx = Tx(job: JobId, nonce: nat)

  datatype Account = Account(ledger: seq<JobId>, outstanding: set<Tx>)

  datatype SweepId = OfJob(job: JobId) | OfRequest(request: nat)

  /**
   * One walk of `reconcileQuarantined`: the workers left, and the two counts read for the first
   * of them. `epoch` is bookkeeping: that worker's epoch when the first count was read.
   */
  datatype Sweep = Sweep(todo: seq<Place>, epoch: nat, latest: Option<nat>, pending: Option<nat>)

  datatype Core = Core(
    pool: Pool,
    procs: map<JobId, Proc>,
    callers: seq<JobId>,            // callers[t] called acquireWithin for ticket t
    chain: seq<Account>,
    sweeps: map<SweepId, Sweep>,
    floor: nat)

  predicate Early(ph: Phase) { ph.Deriving? || ph.Sweeping? || ph.Refreshing? }

  predicate Over(ph: Phase) { ph.Throwing? || ph.Ended? }

  /** The job has taken its lease and not given it back. */
  predicate Holding(ph: Phase) { !Early(ph) && !Over(ph) && !ph.AwaitingLease? && !ph.AwaitingRespond? }

  predicate Sent(ph: Phase) { ph.Confirming? || (ph.Broadcasting? && ph.accepted) }

  predicate KnowsNonce(ph: Phase) {
    Holding(ph) && !ph.CheckingBalance? && !ph.ReadingNonce?
  }

  function NonceOf(ph: Phase): nat
    requires KnowsNonce(ph)
  {
    ph.nonce
  }

  // ------------------------------------------------------------------ the chain

  function Latest(a: Account): nat { |a.ledger| }

  /** The `pending` count: the nonces from `n` on that accepted transactions occupy without a gap. */
  function PendingFrom(outstanding: set<Tx>, n: nat): (r: nat)
    ensures r >= n
    ensures r == n <==> forall x :: x in outstanding ==> x.nonce != n
    decreases |outstanding|
  {
    if exists x | x in outstanding :: x.nonce == n then
      var rest := set x | x in outstanding && x.nonce != n;
      assert rest < outstanding;
      Smaller(rest, outstanding);
      PendingFrom(rest, n + 1)
    else n
  }

  lemma Smaller(a: set<Tx>, b: set<Tx>)
    requires a < b
    ensures |a| < |b|
  {
    assert b == a + (b - a);
  }

  function Pending(a: Account): nat { PendingFrom(a.outstanding, Latest(a)) }

  function Mined(a: Account, x: Tx): Account {
    Account(a.ledger + [x.job], set y | y in a.outstanding && y.nonce != x.nonce)
  }

  // ------------------------------------------------------------------ events

  datatype Event =
    | Start(job: JobId)
    | Derived(job: JobId)
    | Throws(job: JobId)
    | OpenSweep(request: nat)
    | ReadLatest(sweep: SweepId)
    | ReadPending(sweep: SweepId)
    | Verdict(sweep: SweepId)
    | SweepFails(sweep: SweepId)
    | SweepEnds(sweep: SweepId)
    | RequestRefreshes(at: Place, balance: nat)
    | Refreshed(job: JobId, balance: nat)
    | AsksLease(job: JobId)
    | LeaseTimer(t: Ticket)
    | LeaseSettles(job: JobId)
    | BalanceRead(job: JobId, balance: nat)
    | NonceRead(job: JobId)
    | InsufficientFunds(job: JobId)
    | Estimated(job: JobId, gasCost: nat)
    | Instructed(job: JobId)
    | RequestSent(job: JobId)
    | Signed(job: JobId)
    | SignatureTimesOut(job: JobId)
    | Attached(job: JobId, matches: bool)
    | NodeAccepts(job: JobId)
    | SendReturns(job: JobId)
    | SendThrows(job: JobId)
    | Receipt(job: JobId, success: bool)
    | ConfirmTimesOut(job: JobId)
    | Responded(job: JobId, matches: bool)
    | RespondTimesOut(job: JobId)
    | Caught(job: JobId)
    | Mine(at: Place, tx: Tx)
    | Drop(at: Place, tx: Tx)
    | AbortAll

  function PhaseOf(c: Core, j: JobId): Phase { if j in c.procs then c.procs[j].phase else Ended }

  /** The place of the worker a job holds; past the end when it holds none. */
  function LeaseOf(c: Core, j: JobId): Place {
    if j in c.procs && c.procs[j].worker.Some? then c.procs[j].worker.value else |c.pool.workers|
  }

  predicate HasTarget(c: Core, k: SweepId) {
    k in c.sweeps && c.sweeps[k].todo != [] && c.sweeps[k].todo[0] < |c.chain|
  }

  predicate Enabled(c: Core, e: Event) {
    match e
    case Start(j) => j !in c.procs
    case Derived(j) => PhaseOf(c, j).Deriving?
    case Throws(j) =>
      var ph := PhaseOf(c, j);
      ph.Deriving? || (ph.Refreshing? && ph.at < |c.pool.workers|) || ph.CheckingBalance? || ph.ReadingNonce?
      || ph.Estimating? || ph.Instructing? || ph.SendingRequest? || ph.Attaching?
    case OpenSweep(r) => OfRequest(r) !in c.sweeps
    case ReadLatest(k) => HasTarget(c, k) && c.sweeps[k].latest.None?
    case ReadPending(k) => HasTarget(c, k) && c.sweeps[k].pending.None?
    case Verdict(k) => HasTarget(c, k) && c.sweeps[k].latest.Some? && c.sweeps[k].pending.Some?
    case SweepFails(k) => HasTarget(c, k)
    case SweepEnds(k) => k in c.sweeps && c.sweeps[k].todo == []
    case RequestRefreshes(_, _) => true
    case Refreshed(j, _) => PhaseOf(c, j).Refreshing? && PhaseOf(c, j).at < |c.pool.workers|
    case AsksLease(j) => PhaseOf(c, j).Refreshing? && PhaseOf(c, j).at >= |c.pool.workers|
    case LeaseTimer(t) => t in c.pool.waiters
    case LeaseSettles(j) => PhaseOf(c, j).AwaitingLease? && c.procs[j].ticket.Some?
      && c.procs[j].ticket.value in c.pool.settled
    case BalanceRead(j, _) => PhaseOf(c, j).CheckingBalance?
    case NonceRead(j) => PhaseOf(c, j).ReadingNonce? && LeaseOf(c, j) < |c.chain|
    case InsufficientFunds(j) => PhaseOf(c, j).ReadingNonce? || PhaseOf(c, j).Estimating?
    case Estimated(j, _) => PhaseOf(c, j).Estimating?
    case Instructed(j) => PhaseOf(c, j).Instructing?
    case RequestSent(j) => PhaseOf(c, j).SendingRequest?
    case Signed(j) => PhaseOf(c, j).AwaitingSignature?
    case SignatureTimesOut(j) => PhaseOf(c, j).AwaitingSignature?
    case Attached(j, _) => PhaseOf(c, j).Attaching?
    case NodeAccepts(j) =>
      // a node refuses a nonce that is already used
      PhaseOf(c, j).Broadcasting? && !PhaseOf(c, j).accepted && LeaseOf(c, j) < |c.chain|
      && PhaseOf(c, j).nonce >= Latest(c.chain[LeaseOf(c, j)])
    case SendReturns(j) => PhaseOf(c, j).Broadcasting? && PhaseOf(c, j).accepted
    case SendThrows(j) => PhaseOf(c, j).Broadcasting?
    case Receipt(j, _) =>
      PhaseOf(c, j).Confirming? && LeaseOf(c, j) < |c.chain|
      && PhaseOf(c, j).nonce < Latest(c.chain[LeaseOf(c, j)])
      && c.chain[LeaseOf(c, j)].ledger[PhaseOf(c, j).nonce] == j
    case ConfirmTimesOut(j) => PhaseOf(c, j).Confirming?
    case Responded(j, _) => PhaseOf(c, j).AwaitingRespond?
    case RespondTimesOut(j) => PhaseOf(c, j).AwaitingRespond?
    case Caught(j) => PhaseOf(c, j).Throwing?
    case Mine(at, tx) => at < |c.chain| && tx in c.chain[at].outstanding && tx.nonce == Latest(c.chain[at])
    case Drop(at, tx) => at < |c.chain| && tx in c.chain[at].outstanding
    case AbortAll => true
  }

  // ------------------------------------------------------------------ steps

  function Goto(c: Core, j: JobId, ph: Phase): Core
    requires j in c.procs
  {
    c.(procs := c.procs[j := c.procs[j].(phase := ph)])
  }

  /** `releaseLease`, then on to `ph`: the lease goes back unless it already did. */
  function Close(c: Core, j: JobId, ph: Phase): Core
    requires j in c.procs
  {
    var pr := c.procs[j];
    if pr.worker.Some? && !pr.released then
      c.(pool := Release(c.pool, pr.worker.value), procs := c.procs[j := pr.(phase := ph, released := true)])
    else Goto(c, j, ph)
  }

  function Rebalanced(c: Core, at: Place, balance: nat, minimum: nat): Core {
    c.(pool := SetBalance(c.pool, at, balance, minimum))
  }

  /** The next worker `refreshUnderfunded` stops at. */
  function NextShort(ws: seq<Worker>, from: Place): (i: Place)
    ensures i >= from
    ensures i < |ws| ==> ws[i].underfunded
    decreases |ws| - from
  {
    if from >= |ws| || ws[from].underfunded then from else NextShort(ws, from + 1)
  }

  function NewSweep(c: Core): Sweep { Sweep(Quarantined(c.pool.workers, 0), 0, None, None) }

  function EpochOf(c: Core, at: Place): nat { if at < |c.pool.workers| then c.pool.workers[at].epoch else 0 }

  /** The sweep after one count came back; the epoch is noted with the first of the two. */
  function Noted(c: Core, s: Sweep): Sweep
    requires s.todo != []
  {
    if s.latest.None? && s.pending.None? then s.(epoch := EpochOf(c, s.todo[0])) else s
  }

  function Note(c: Core, k: SweepId, latest: bool): Core
    requires HasTarget(c, k)
  {
    var s := Noted(c, c.sweeps[k]);
    var a := c.chain[s.todo[0]];
    c.(sweeps := c.sweeps[k := if latest then s.(latest := Some(Latest(a))) else s.(pending := Some(Pending(a)))])
  }

  /** Both counts are in: the worker comes back unless the node reports more pending than mined. */
  function Judged(c: Core, k: SweepId): Core
    requires HasTarget(c, k) && c.sweeps[k].latest.Some? && c.sweeps[k].pending.Some?
  {
    var s := c.sweeps[k];
    c.(pool := Reconcile(c.pool, s.todo[0], s.pending.value > s.latest.value),
       sweeps := c.sweeps[k := Sweep(s.todo[1..], 0, None, None)])
  }

  function EndSweep(c: Core, k: SweepId, failed: bool): Core {
    var d := c.(sweeps := c.sweeps - {k});
    if k.OfRequest? || !PhaseOf(c, k.job).Sweeping? then d
    else if failed then Close(d, k.job, Throwing(Unanticipated))
    else Goto(d, k.job, Refreshing(NextShort(c.pool.workers, 0)))
  }

  function Refresh(c: Core, j: JobId, balance: nat): Core
    requires PhaseOf(c, j).Refreshing?
  {
    var at := PhaseOf(c, j).at;
    var d := Rebalanced(c, at, balance, c.floor);
    Goto(d, j, Refreshing(NextShort(d.pool.workers, at + 1)))
  }

  function AskLease(c: Core, j: JobId): Core
    requires j in c.procs
  {
    if c.procs[j].aborted then Close(c, j, Throwing(ShuttingDown))
    else c.(pool := AcquireWithin(c.pool),
            callers := c.callers + [j],
            procs := c.procs[j := c.procs[j].(phase := AwaitingLease, ticket := Some(c.pool.next))])
  }

  function SettleLease(c: Core, j: JobId): Core
    requires j in c.procs && c.procs[j].ticket.Some? && c.procs[j].ticket.value in c.pool.settled
  {
    match c.pool.settled[c.procs[j].ticket.value]
    case Granted(at) => c.(procs := c.procs[j := c.procs[j].(phase := CheckingBalance, worker := Some(at))])
    case Refused(reason) => Close(c, j, Throwing(NoWorker(reason)))
    case Abandoned => Close(c, j, Throwing(Unanticipated))
  }

  /** The job ends because its address cannot pay: marked short against `minimum`. */
  function Short(c: Core, j: JobId, balance: nat, minimum: nat): Core
    requires j in c.procs
  {
    Close(Rebalanced(c, LeaseOf(c, j), balance, minimum), j, Ended)
  }

  /** `abortIfShuttingDown`, then on to `ph`. */
  function UnlessAborted(c: Core, j: JobId, ph: Phase): Core
    requires j in c.procs
  {
    if c.procs[j].aborted then Close(c, j, Throwing(ShuttingDown)) else Goto(c, j, ph)
  }

  function Accept(c: Core, j: JobId): Core
    requires PhaseOf(c, j).Broadcasting? && LeaseOf(c, j) < |c.chain|
  {
    var at, n := LeaseOf(c, j), PhaseOf(c, j).nonce;
    Goto(c, j, Broadcasting(n, true)).(
      chain := c.chain[at := c.chain[at].(outstanding := c.chain[at].outstanding + {Tx(j, n)})])
  }

  /** The outcome of a broadcast is unknown: withhold the address, then give the lease back. */
  function GiveUp(c: Core, j: JobId): Core
    requires KnowsNonce(PhaseOf(c, j))
  {
    Close(c.(pool := Quarantine(c.pool, LeaseOf(c, j), NonceOf(PhaseOf(c, j)))), j, Ended)
  }

  function Abort(c: Core): Core {
    c.(pool := RejectWaiters(c.pool),
       procs := map j | j in c.procs :: if Over(c.procs[j].phase) then c.procs[j] else c.procs[j].(aborted := true))
  }

  /** The events that resume a job past the settling of its lease. */
  predicate Resumes(e: Event) {
    match e
    case BalanceRead(_, _) | NonceRead(_) | InsufficientFunds(_) | Estimated(_, _) | Instructed(_) | RequestSent(_)
      | Signed(_) | SignatureTimesOut(_) | Attached(_, _) | NodeAccepts(_) | SendReturns(_) | SendThrows(_)
      | Receipt(_, _) | ConfirmTimesOut(_) | Responded(_, _) | RespondTimesOut(_) | Caught(_) => true
    case _ => false
  }

  function Resume(c: Core, e: Event): Core
    requires Resumes(e) && Enabled(c, e)
  {
    var ph := PhaseOf(c, e.job);
    match e
    case BalanceRead(j, balance) =>
      if balance < c.floor then Short(c, j, balance, c.floor) else UnlessAborted(c, j, ReadingNonce(balance))
    case NonceRead(j) => Goto(c, j, Estimating(ph.balance, Latest(c.chain[LeaseOf(c, j)])))
    case InsufficientFunds(j) => Short(c, j, ph.balance, ph.balance + 1)
    case Estimated(j, gasCost) =>
      if ph.balance < gasCost then Short(c, j, ph.balance, gasCost) else UnlessAborted(c, j, Instructing(ph.nonce))
    case Instructed(j) => Goto(c, j, SendingRequest(ph.nonce))
    case RequestSent(j) => Goto(c, j, AwaitingSignature(ph.nonce))
    case Signed(j) => Goto(c, j, Attaching(ph.nonce))
    case SignatureTimesOut(j) => Close(c, j, Ended)
    case Attached(j, matches) => if matches then Goto(c, j, Broadcasting(ph.nonce, false)) else Close(c, j, Ended)
    case NodeAccepts(j) => Accept(c, j)
    case SendReturns(j) => Goto(c, j, Confirming(ph.nonce))
    case SendThrows(j) => GiveUp(c, j)
    case Receipt(j, success) => Close(c, j, if success then AwaitingRespond else Ended)
    case ConfirmTimesOut(j) => GiveUp(c, j)
    case Responded(j, _) => Close(c, j, Ended)
    case RespondTimesOut(j) => Close(c, j, Ended)
    case Caught(j) => Goto(c, j, Ended)
  }

  function Step(c: Core, e: Event): Core
    requires Enabled(c, e)
  {
    match e
    case Start(j) => c.(procs := c.procs[j := Proc(Deriving, None, None, false, false)])
    case Derived(j) => Goto(c, j, Sweeping).(sweeps := c.sweeps[OfJob(j) := NewSweep(c)])
    case Throws(j) => Close(c, j, Throwing(Unanticipated))
    case OpenSweep(r) => c.(sweeps := c.sweeps[OfRequest(r) := NewSweep(c)])
    case ReadLatest(k) => Note(c, k, true)
    case ReadPending(k) => Note(c, k, false)
    case Verdict(k) => Judged(c, k)
    case SweepFails(k) => EndSweep(c, k, true)
    case SweepEnds(k) => EndSweep(c, k, false)
    case RequestRefreshes(at, balance) => Rebalanced(c, at, balance, c.floor)
    case Refreshed(j, balance) => Refresh(c, j, balance)
    case AsksLease(j) => AskLease(c, j)
    case LeaseTimer(t) => c.(pool := Timeout(c.pool, t))
    case LeaseSettles(j) => SettleLease(c, j)
    case Mine(at, tx) => c.(chain := c.chain[at := Mined(c.chain[at], tx)])
    case Drop(at, tx) => c.(chain := c.chain[at := c.chain[at].(outstanding := c.chain[at].outstanding - {tx})])
    case AbortAll => Abort(c)
    case _ => Resume(c, e)
  }

  // ------------------------------------------------------------------ runs

  predicate Possible(c: Core, es: seq<Event>)
    decreases |es|
  {
    es == [] || (Enabled(c, es[0]) && Possible(Step(c, es[0]), es[1..]))
  }

  function After(c: Core, es: seq<Event>): Core
    requires Possible(c, es)
    decreases |es|
  {
    if es == [] then c else After(Step(c, es[0]), es[1..])
  }

  lemma {:induction false} RunsJoin(c: Core, a: seq<Event>, b: seq<Event>)
    requires Possible(c, a) && Possible(After(c, a), b)
    ensures Possible(c, a + b) && After(c, a + b) == After(After(c, a), b)
    decreases |a|
  {
    hide Step, Enabled;
    if a == [] {
      assert a + b == b;
    } else {
      assert (a + b)[0] == a[0] && (a + b)[1..] == a[1..] + b;
      RunsJoin(Step(c, a[0]), a[1..], b);
    }
  }

  lemma {:induction false} RunsSplit(c: Core, es: seq<Event>, i: nat)
    requires Possible(c, es) && i <= |es|
    ensures Possible(c, es[..i]) && Possible(After(c, es[..i]), es[i..])
    ensures After(After(c, es[..i]), es[i..]) == After(c, es)
    decreases i
  {
    hide Step, Enabled;
    if i > 0 {
      assert es[..i][0] == es[0] && es[..i][1..] == es[1..][..i - 1] && es[i..] == es[1..][i - 1..];
      RunsSplit(Step(c, es[0]), es[1..], i - 1);
    } else {
      assert es[0..] == es;
    }
  }

  /** A fresh service: idle workers, nothing of ours unmined, no job yet. */
  ghost predicate Init(c: Core) {
    && c.pool == Fresh(|c.chain|)
    && c.procs == map[] && c.callers == [] && c.sweeps == map[]
    && forall i :: 0 <= i < |c.chain| ==> c.chain[i].outstanding == {}
  }
}
