/**
 * The whole service as one state machine: the jobs and their pool, the store that records
 * them, the limiter that admits them, and the clock. An input is either a request to start a
 * job, a question about the limiter, or an event of `JobProtocol`; the clock is read once per
 * atomic segment.
 */
module Service {
  import opened Options
  import Protocol = JobProtocol
  import Store = StoreModel
  import opened StoreSafety
  import Limiter = RateLimiter

  type JobId = Protocol.JobId

  datatype Config = Config(
    limits: Store.Limits,
    rate: Limiter.Limits,
    signatureTimeoutMs: nat,
    confirmTimeoutMs: nat,
    respondTimeoutMs: nat)

  /** The environment variables a service is built from. */
  datatype Settings = Settings(
    paths: nat, maxJobs: nat, retainedJobs: nat, maxActiveJobs: nat, maxRequestsPerMinute: nat,
    signatureTimeoutMs: nat, ethConfirmTimeoutMs: nat, respondTimeoutMs: nat)

  /** The constructor's choice: on mainnet the limits are fixed, whatever the settings say. */
  function ConfigFor(isMainnet: bool, env: Settings): Config {
    Config(Store.Limits(if isMainnet then 2 else env.maxJobs, env.retainedJobs,
                        if isMainnet then 1 else env.maxActiveJobs),
           Limiter.Limits(if isMainnet then 1 else env.maxRequestsPerMinute, 60_000),
           env.signatureTimeoutMs, env.ethConfirmTimeoutMs, env.respondTimeoutMs)
  }

  function PathsFor(isMainnet: bool, env: Settings): nat { if isMainnet then 1 else env.paths }

  /** `born` and `log` are bookkeeping: when each job was accepted, and every accepted hit. */
  datatype State = State(
    core: Protocol.Core,
    store: Store.Store,
    hits: seq<int>,
    clock: int,
    log: seq<int>,
    born: map<JobId, int>)

  datatype Input =
    | Submit(job: JobId, mode: Store.Mode, now: int)
    | Ask(call: Limiter.Call, now: int)
    | Happens(event: Protocol.Event, now: int)

  /** What the handler of `POST /sign_bidirectional` answers; both refusals say when to try again. */
  datatype Response =
    | Full(ceiling: Store.Ceiling, retryAfterMs: int)
    | Limited(retryAfterMs: int)
    | Accepted(job: JobId)

  // ------------------------------------------------------------------ what a job records

  function ReasonOf(cause: Protocol.Cause): Store.Reason {
    match cause
    case ShuttingDown => Store.Shutdown
    case NoWorker(reason) => if reason.AllUnderfunded? then Store.AllWorkersUnderfunded else Store.AllWorkersBusy
    case Unanticipated => Store.InternalError
  }

  /** The updates of the record made by the segment that an event resumes. */
  function Moves(c: Protocol.Core, e: Protocol.Event): seq<Move>
    requires Protocol.Enabled(c, e)
  {
    match e
    case LeaseSettles(j) => if c.pool.settled[c.procs[j].ticket.value].Granted? then [Lease] else []
    case BalanceRead(_, balance) => if balance < c.floor then [Fail(Store.PreflightUnderfunded)] else []
    case InsufficientFunds(_) => [Fail(Store.PreflightUnderfunded)]
    case Estimated(j, gasCost) =>
      if Protocol.PhaseOf(c, j).balance < gasCost then [Fail(Store.PreflightUnderfunded)] else []
    case RequestSent(_) => [Request, Await]
    case Signed(_) => [Sign]
    case SignatureTimesOut(_) => [Fail(Store.SignatureTimeout)]
    case Attached(_, matches) => if matches then [Verify] else [Fail(Store.DerivationMismatch)]
    case SendReturns(_) => [Broadcast]
    case SendThrows(_) => [Fail(Store.BroadcastFailed)]
    case Receipt(_, success) => if success then [Confirm] else [Fail(Store.TransactionReverted)]
    case ConfirmTimesOut(_) => [Fail(Store.ConfirmationTimeout)]
    case Responded(_, matches) => [Respond, if matches then Finish else Fail(Store.RespondMismatch)]
    case RespondTimesOut(_) => [Fail(Store.RespondTimeout)]
    case Caught(j) => [Fail(ReasonOf(Protocol.PhaseOf(c, j).cause))]
    case _ => []
  }

  /** The job whose segment an event runs. */
  function OwnerOf(e: Protocol.Event): Option<JobId> {
    match e
    case OpenSweep(_) | ReadLatest(_) | ReadPending(_) | Verdict(_) | RequestRefreshes(_, _) | LeaseTimer(_)
      | Mine(_, _) | Drop(_, _) | AbortAll => None
    case SweepFails(k) => if k.OfJob? then Some(k.job) else None
    case SweepEnds(k) => if k.OfJob? then Some(k.job) else None
    case _ => var j := e.job; Some(j)
  }

  function Acts(id: JobId, moves: seq<Move>, now: int): seq<Op> {
    if moves == [] then [] else [Act(id, moves[0], now)] + Acts(id, moves[1..], now)
  }

  /** The store operations of an event. */
  function Ops(c: Protocol.Core, e: Protocol.Event, now: int): seq<Op>
    requires Protocol.Enabled(c, e)
  {
    match OwnerOf(e)
    case None => []
    case Some(j) => Acts(j, Moves(c, e), now)
  }

  // ------------------------------------------------------------------ steps

  predicate Enabled(s: State, i: Input) {
    && s.clock <= i.now
    && match i
       case Submit(j, _, _) => j !in s.core.procs && j !in s.store.jobs
       case Ask(call, now) => !call.TryAcquire? && call.now == now
       case Happens(e, _) => !e.Start? && Protocol.Enabled(s.core, e)
  }

  /** The admission sequence: capacity first, then the limiter, then the job. */
  function Answer(cfg: Config, s: State, j: JobId, now: int): Response {
    match Store.AtCapacity(s.store, cfg.limits)
    case Some(ceiling) => Full(ceiling, if ceiling.Active? then 15_000 else 60_000)
    case None =>
      if Limiter.ReplyTo(cfg.rate, s.hits, Limiter.TryAcquire(now)).ok then Accepted(j)
      else
        var refused := Limiter.HitsAfter(cfg.rate, s.hits, Limiter.TryAcquire(now));
        Limited(Limiter.ReplyTo(cfg.rate, refused, Limiter.RetryAfter(now)).ms)
  }

  function Admitted(cfg: Config, s: State, j: JobId, mode: Store.Mode, now: int): State
    requires j !in s.core.procs
  {
    State(Protocol.Step(s.core, Protocol.Start(j)), Applied(s.store, cfg.limits, Admit(j, mode, now)),
          Limiter.HitsAfter(cfg.rate, s.hits, Limiter.TryAcquire(now)), now, s.log + [now], s.born[j := now])
  }

  function Submitted(cfg: Config, s: State, j: JobId, mode: Store.Mode, now: int): State
    requires j !in s.core.procs
  {
    match Answer(cfg, s, j, now)
    case Full(_, _) => s.(clock := now)
    case Limited(_) =>
      var refused := Limiter.HitsAfter(cfg.rate, s.hits, Limiter.TryAcquire(now));
      s.(clock := now, hits := Limiter.HitsAfter(cfg.rate, refused, Limiter.RetryAfter(now)))
    case Accepted(_) => Admitted(cfg, s, j, mode, now)
  }

  function Step(cfg: Config, s: State, i: Input): State
    requires Enabled(s, i)
  {
    match i
    case Submit(j, mode, now) => Submitted(cfg, s, j, mode, now)
    case Ask(call, now) => s.(clock := now, hits := Limiter.HitsAfter(cfg.rate, s.hits, call))
    case Happens(e, now) =>
      s.(core := Protocol.Step(s.core, e), store := Final(s.store, cfg.limits, Ops(s.core, e, now)), clock := now)
  }

  predicate Possible(cfg: Config, s: State, ins: seq<Input>)
    decreases |ins|
  {
    ins == [] || (Enabled(s, ins[0]) && Possible(cfg, Step(cfg, s, ins[0]), ins[1..]))
  }

  function After(cfg: Config, s: State, ins: seq<Input>): State
    requires Possible(cfg, s, ins)
    decreases |ins|
  {
    if ins == [] then s else After(cfg, Step(cfg, s, ins[0]), ins[1..])
  }

  ghost predicate Init(s: State) {
    Protocol.Init(s.core) && s.store == Store.EMPTY && s.hits == [] && s.log == [] && s.born == map[]
  }
}
