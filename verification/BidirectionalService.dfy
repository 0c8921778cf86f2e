/**
 * `BidirectionalService` as the process runs it: the pool, the store and the limiter are
 * objects, and each method is one segment of `run` between two awaits (or of the admission
 * handler), with the calls the source makes. Each is proved to do to those objects what the
 * state machine does to their values; what an await yielded is a parameter. `chain` stands for
 * the network, which no segment changes.
 */
module BidirectionalService {
  import opened Options
  import Pool = PoolModel
  import WorkerPool
  import Store = StoreModel
  import JobStore
  import Limiter = RateLimiter
  import Protocol = JobProtocol
  import opened StoreSafety
  import opened Service
  import LeaseSafety

  class BidirectionalService {
    const pool: WorkerPool.WorkerPool
    const jobs: JobStore.JobStore
    const limiter: Limiter.RateLimiter
    const floor: nat
    /** The local variables of every call of `run`, and where it is suspended. */
    var running: map<JobId, Protocol.Proc>
    var callers: seq<JobId>
    ghost var sweeps: map<Protocol.SweepId, Protocol.Sweep>

    /** The objects are sound, and a worker is found by its path. */
    ghost predicate Sound()
      reads pool, pool.workers, jobs, jobs.jobs.Values
    {
      && pool.Valid() && jobs.Valid()
      && forall a, b :: 0 <= a < b < |pool.workers| ==> pool.workers[a].path != pool.workers[b].path
    }

    /** The value the jobs and the pool stand for. */
    ghost function Core(chain: seq<Protocol.Account>): Protocol.Core
      reads this, pool
    {
      Protocol.Core(pool.model, running, callers, chain, sweeps, floor)
    }

    ghost predicate Valid()
      reads this, pool, pool.workers, jobs, jobs.jobs.Values
    {
      Sound() && LeaseSafety.Leases(Core([]))
    }

    /** Job `j` has a worker of the pool. */
    ghost predicate HasWorker(j: JobId)
      reads this, pool
    {
      j in running && running[j].worker.Some? && running[j].worker.value < |pool.workers|
    }

    /** `releaseLease` has a worker of the pool to give back, or none at all. */
    ghost predicate MayLeave(j: JobId)
      reads this, pool
    {
      j in running && (running[j].worker.Some? && !running[j].released ==> HasWorker(j))
    }

    /** Mainnet gets its fixed limits and a single path; other environments get what is configured. */
    constructor (isMainnet: bool, env: Settings, prefix: string, floor: nat)
      ensures Valid() && fresh(pool) && fresh(jobs) && fresh(limiter)
      ensures jobs.limits == ConfigFor(isMainnet, env).limits && jobs.model == Store.EMPTY
      ensures limiter.limits == ConfigFor(isMainnet, env).rate && limiter.hits == []
      ensures |pool.workers| == PathsFor(isMainnet, env) == (if isMainnet then 1 else env.paths) && this.floor == floor
      ensures forall i :: 0 <= i < |pool.workers| ==>
        pool.workers[i].path == WorkerPool.BuildPaths(prefix, |pool.workers|)[i]
      ensures forall chain: seq<Protocol.Account> ::
        StartsWith(PathsFor(isMainnet, env), chain) ==> Protocol.Init(Core(chain))
    {
      var paths := if isMainnet then 1 else env.paths;
      WorkerPool.PathsDistinct(prefix, paths);
      pool := new WorkerPool.WorkerPool(WorkerPool.BuildPaths(prefix, paths));
      var maxJobs, maxActiveJobs := if isMainnet then 2 else env.maxJobs, if isMainnet then 1 else env.maxActiveJobs;
      jobs := new JobStore.JobStore(Store.Limits(maxJobs, env.retainedJobs, maxActiveJobs));
      limiter := new Limiter.RateLimiter(if isMainnet then 1 else env.maxRequestsPerMinute);
      this.floor := floor;
      running, callers, sweeps := map[], [], map[];
    }

    // ---------------------------------------------------------------- pieces of `run`

    method Suspend(j: JobId, ph: Protocol.Phase, ghost chain: seq<Protocol.Account>)
      requires Sound() && j in running
      modifies this`running
      ensures Sound() && Core(chain) == Protocol.Goto(old(Core(chain)), j, ph)
    {
      running := running[j := running[j].(phase := ph)];
    }

    method GiveBack(at: Pool.Place)
      requires Sound() && at < |pool.workers|
      modifies pool, pool.workers
      ensures Sound() && pool.model == Pool.Release(old(pool.model), at)
    {
      pool.FoundAgain(at);
      pool.Release(pool.workers[at].path);
    }

    method ReleaseLease(j: JobId, ghost chain: seq<Protocol.Account>)
      requires Sound() && MayLeave(j)
      modifies this`running, pool, pool.workers
      ensures Sound() && j in running
      ensures forall ph :: Protocol.Goto(Core(chain), j, ph) == Protocol.Close(old(Core(chain)), j, ph)
    {
      hide Pool.Release, Pool.WellFormed;
      var local := running[j];
      if local.worker.Some? && !local.released {
        GiveBack(local.worker.value);
        running := running[j := local.(released := true)];
        forall ph ensures running[j := running[j].(phase := ph)]
          == old(running)[j := local.(phase := ph, released := true)] {
        }
      }
    }

    /** The `finally` block, and then on to `ph`. */
    method Finally(j: JobId, ph: Protocol.Phase, ghost chain: seq<Protocol.Account>)
      requires Sound() && MayLeave(j)
      modifies this`running, pool, pool.workers
      ensures Sound() && Core(chain) == Protocol.Close(old(Core(chain)), j, ph)
    {
      hide Protocol.Close, Protocol.Goto, Sound;
      ReleaseLease(j, chain);
      Suspend(j, ph, chain);
    }

    method MarkBalance(at: Pool.Place, balance: nat, minimum: nat, ghost chain: seq<Protocol.Account>)
      requires Sound() && at < |pool.workers|
      modifies pool, pool.workers
      ensures Sound() && Core(chain) == Protocol.Rebalanced(old(Core(chain)), at, balance, minimum)
    {
      pool.FoundAgain(at);
      pool.SetBalance(pool.workers[at].path, balance, minimum);
    }

    method Withhold(j: JobId, nonce: nat, ghost chain: seq<Protocol.Account>)
      requires Sound() && HasWorker(j)
      modifies pool, pool.workers
      ensures Sound()
      ensures Core(chain) == old(Core(chain)).(pool := Pool.Quarantine(old(pool.model), running[j].worker.value, nonce))
    {
      pool.FoundAgain(running[j].worker.value);
      pool.Quarantine(pool.workers[running[j].worker.value].path, nonce);
    }

    method Reconcile(at: Pool.Place, hasOutstanding: bool)
      requires Sound() && at < |pool.workers|
      modifies pool, pool.workers
      ensures Sound() && pool.model == Pool.Reconcile(old(pool.model), at, hasOutstanding)
    {
      pool.FoundAgain(at);
      pool.Reconcile(pool.workers[at].path, hasOutstanding);
    }

    method Record(j: JobId, m: Move, now: int)
      requires Sound()
      modifies jobs, jobs.jobs.Values
      ensures Sound() && jobs.jobs.Values <= old(jobs.jobs.Values)
      ensures jobs.model == Final(old(jobs.model), jobs.limits, Acts(j, [m], now))
    {
      OneUpdate(jobs.limits, jobs.model, j, m, now);
      jobs.Update(j, PatchOf(m, now));
    }

    method RecordBoth(j: JobId, first: Move, second: Move, now: int)
      requires Sound()
      modifies jobs, jobs.jobs.Values
      ensures Sound() && jobs.jobs.Values <= old(jobs.jobs.Values)
      ensures jobs.model == Final(old(jobs.model), jobs.limits, Acts(j, [first, second], now))
    {
      hide Sound, Final, Acts;
      TwoUpdates(jobs.limits, jobs.model, j, first, second, now);
      Record(j, first, now);
      Record(j, second, now);
    }

    /** `jobs.fail`, then `return` through the `finally` block. */
    method EndFailed(j: JobId, reason: Store.Reason, now: int, ghost chain: seq<Protocol.Account>)
      requires Sound() && MayLeave(j)
      modifies this`running, pool, pool.workers, jobs, jobs.jobs.Values
      ensures Sound() && Core(chain) == Protocol.Close(old(Core(chain)), j, Protocol.Ended)
      ensures jobs.model == Final(old(jobs.model), jobs.limits, Acts(j, [Fail(reason)], now))
    {
      hide Protocol.Close, Sound, Final, Acts;
      Record(j, Fail(reason), now);
      Finally(j, Protocol.Ended, chain);
    }

    /** `confirmed`, and the lease goes back early. */
    method LeaveConfirmed(j: JobId, now: int, ghost chain: seq<Protocol.Account>)
      requires Sound() && MayLeave(j)
      modifies this`running, pool, pool.workers, jobs, jobs.jobs.Values
      ensures Sound() && Core(chain) == Protocol.Close(old(Core(chain)), j, Protocol.AwaitingRespond)
      ensures jobs.model == Final(old(jobs.model), jobs.limits, Acts(j, [Confirm], now))
    {
      hide Protocol.Close, Sound, Final, Acts;
      Record(j, Confirm, now);
      Finally(j, Protocol.AwaitingRespond, chain);
    }

    /** The respond is recorded and compared, then `return` through the `finally` block. */
    method EndResponded(j: JobId, matches: bool, now: int, ghost chain: seq<Protocol.Account>)
      requires Sound() && MayLeave(j)
      modifies this`running, pool, pool.workers, jobs, jobs.jobs.Values
      ensures Sound() && Core(chain) == Protocol.Close(old(Core(chain)), j, Protocol.Ended)
      ensures jobs.model == Final(old(jobs.model), jobs.limits,
                                  Acts(j, [Respond, if matches then Finish else Fail(Store.RespondMismatch)], now))
    {
      hide Protocol.Close, Sound, Final, Acts;
      RecordBoth(j, Respond, if matches then Finish else Fail(Store.RespondMismatch), now);
      Finally(j, Protocol.Ended, chain);
    }

    /** `abortIfShuttingDown`, and then on to `ph`. */
    method UnlessShuttingDown(j: JobId, ph: Protocol.Phase, ghost chain: seq<Protocol.Account>)
      requires Sound() && MayLeave(j)
      modifies this`running, pool, pool.workers
      ensures Sound() && Core(chain) == Protocol.UnlessAborted(old(Core(chain)), j, ph)
    {
      hide Protocol.Close, Protocol.Goto, Sound;
      if running[j].aborted {
        Finally(j, Protocol.Throwing(Protocol.ShuttingDown), chain);
      } else {
        Suspend(j, ph, chain);
      }
    }

    /** The address cannot pay: it is marked short, the job recorded as underfunded, the lease given back. */
    method EndShort(j: JobId, balance: nat, minimum: nat, now: int, ghost chain: seq<Protocol.Account>)
      requires Sound() && HasWorker(j)
      modifies this`running, pool, pool.workers, jobs, jobs.jobs.Values
      ensures Sound() && Core(chain) == Protocol.Short(old(Core(chain)), j, balance, minimum)
      ensures jobs.model == Final(old(jobs.model), jobs.limits, Acts(j, [Fail(Store.PreflightUnderfunded)], now))
    {
      hide Protocol.Close, Sound, Final, Acts;
      MarkBalance(running[j].worker.value, balance, minimum, chain);
      EndFailed(j, Store.PreflightUnderfunded, now, chain);
    }

    /** A broadcast whose outcome is unknown: the address is withheld before its lease goes back. */
    method EndUnknown(j: JobId, nonce: nat, reason: Store.Reason, now: int, ghost chain: seq<Protocol.Account>)
      requires Sound() && HasWorker(j)
      modifies this`running, pool, pool.workers, jobs, jobs.jobs.Values
      ensures Sound()
      ensures Core(chain) == Protocol.Close(
        old(Core(chain)).(pool := Pool.Quarantine(old(pool.model), old(running[j].worker.value), nonce)),
        j, Protocol.Ended)
      ensures jobs.model == Final(old(jobs.model), jobs.limits, Acts(j, [Fail(reason)], now))
    {
      hide Protocol.Close, Sound, Final, Acts, Pool.Quarantine;
      Withhold(j, nonce, chain);
      EndFailed(j, reason, now, chain);
    }

    lemma HolderHasWorker(j: JobId)
      requires Valid() && j in running
      ensures MayLeave(j)
      ensures Protocol.Holding(running[j].phase) ==> HasWorker(j)
    {
      assert LeaseSafety.ProcOk(Core([]), j);
    }

    lemma SameSize()
      requires Sound()
      ensures |pool.model.workers| == |pool.workers|
    {
    }

    lemma SameQueue()
      requires Sound()
      ensures pool.settled == pool.model.settled && pool.next == pool.model.next
    {
    }

    /** The next worker from `from` on that is marked short. */
    method FindShort(from: Pool.Place) returns (at: Pool.Place)
      requires Sound()
      ensures at == Protocol.NextShort(pool.model.workers, from)
    {
      at := from;
      while at < |pool.workers| && !pool.workers[at].underfunded
        invariant from <= at
        invariant Protocol.NextShort(pool.model.workers, from) == Protocol.NextShort(pool.model.workers, at)
      {
        at := at + 1;
      }
    }

    /** `setBalance` for the worker the walk stands at, and the next one it stops at. */
    method RefreshAt(j: JobId, at: Pool.Place, balance: nat, ghost chain: seq<Protocol.Account>)
      requires Sound() && at < |pool.workers| && j in running && running[j].phase == Protocol.Refreshing(at)
      modifies this`running, pool, pool.workers
      ensures Sound() && Core(chain) == Protocol.Refresh(old(Core(chain)), j, balance)
    {
      hide Sound, Protocol.Rebalanced, Protocol.Goto, Protocol.NextShort;
      MarkBalance(at, balance, floor, chain);
      var next := FindShort(at + 1);
      Suspend(j, Protocol.Refreshing(next), chain);
    }

    method Enter() returns (t: Pool.Ticket)
      requires Sound()
      modifies pool, pool.workers
      ensures Sound() && pool.model == Pool.AcquireWithin(old(pool.model)) && t == old(pool.model.next)
    {
      SameQueue();
      hide Pool.AcquireWithin, Pool.WellFormed;
      t := pool.AcquireWithin();
    }

    /** The call of `acquireWithin`. */
    method Queue(j: JobId, ghost chain: seq<Protocol.Account>)
      requires Sound() && j in running
      modifies this`running, this`callers, pool, pool.workers
      ensures Sound() && Core(chain) == Queued(old(Core(chain)), j)
    {
      hide Sound, Pool.AcquireWithin;
      var t := Enter();
      callers := callers + [j];
      running := running[j := running[j].(phase := Protocol.AwaitingLease, ticket := Some(t))];
    }

    method Take(j: JobId, at: Pool.Place, ghost chain: seq<Protocol.Account>)
      requires Sound() && j in running
      modifies this`running
      ensures Sound()
      ensures Core(chain) == old(Core(chain)).(
        procs := old(running)[j := old(running[j]).(phase := Protocol.CheckingBalance, worker := Some(at))])
    {
      running := running[j := running[j].(phase := Protocol.CheckingBalance, worker := Some(at))];
    }

    // ---------------------------------------------------------------- the segments of a job that holds an address

    method OnBalance(j: JobId, balance: nat, now: int, ghost chain: seq<Protocol.Account>)
      requires Valid() && Protocol.Enabled(Core(chain), Protocol.BalanceRead(j, balance))
      modifies this, pool, pool.workers, jobs, jobs.jobs.Values
      ensures Valid()
      ensures Performs(jobs.limits, old(Core(chain)), old(jobs.model),
                       Protocol.BalanceRead(j, balance), now, Core(chain), jobs.model)
    {
      ghost var c := Core(chain);
      HolderHasWorker(j);
      hide Sound, Protocol.Short, Protocol.UnlessAborted, Protocol.Close, Protocol.Goto;
      hide Final, Acts, Pool.AcquireWithin, LeaseSafety.Leases;
      NoUpdate(jobs.limits, jobs.model, j, now);
      if balance < floor {
        EndShort(j, balance, floor, now, chain);
      } else {
        UnlessShuttingDown(j, Protocol.ReadingNonce(balance), chain);
      }
      StillLeases(c, Core(chain), Protocol.BalanceRead(j, balance));
    }

    method OnNonce(j: JobId, latest: nat, now: int, ghost chain: seq<Protocol.Account>)
      requires Valid() && Protocol.Enabled(Core(chain), Protocol.NonceRead(j))
      requires latest == Protocol.Latest(chain[Protocol.LeaseOf(Core(chain), j)])
      modifies this, pool, pool.workers, jobs, jobs.jobs.Values
      ensures Valid()
      ensures Performs(jobs.limits, old(Core(chain)), old(jobs.model),
                       Protocol.NonceRead(j), now, Core(chain), jobs.model)
    {
      ghost var c := Core(chain);
      HolderHasWorker(j);
      hide Sound, Protocol.Short, Protocol.UnlessAborted, Protocol.Close, Protocol.Goto;
      hide Final, Acts, Pool.AcquireWithin, LeaseSafety.Leases;
      NoUpdate(jobs.limits, jobs.model, j, now);
      Suspend(j, Protocol.Estimating(running[j].phase.balance, latest), chain);
      StillLeases(c, Core(chain), Protocol.NonceRead(j));
    }

    method OnInsufficientFunds(j: JobId, now: int, ghost chain: seq<Protocol.Account>)
      requires Valid() && Protocol.Enabled(Core(chain), Protocol.InsufficientFunds(j))
      modifies this, pool, pool.workers, jobs, jobs.jobs.Values
      ensures Valid()
      ensures Performs(jobs.limits, old(Core(chain)), old(jobs.model),
                       Protocol.InsufficientFunds(j), now, Core(chain), jobs.model)
    {
      ghost var c := Core(chain);
      HolderHasWorker(j);
      RefusedEstimate(c, j, now);
      hide Sound, Protocol.Short, Protocol.Step, Protocol.Enabled;
      hide Final, Ops, Acts, LeaseSafety.Leases;
      var balance := running[j].phase.balance;
      EndShort(j, balance, balance + 1, now, chain);
      StillLeases(c, Core(chain), Protocol.InsufficientFunds(j));
    }

    method OnGasCost(j: JobId, gasCost: nat, now: int, ghost chain: seq<Protocol.Account>)
      requires Valid() && Protocol.Enabled(Core(chain), Protocol.Estimated(j, gasCost))
      modifies this, pool, pool.workers, jobs, jobs.jobs.Values
      ensures Valid()
      ensures Performs(jobs.limits, old(Core(chain)), old(jobs.model),
                       Protocol.Estimated(j, gasCost), now, Core(chain), jobs.model)
    {
      ghost var c := Core(chain);
      HolderHasWorker(j);
      hide Sound, Protocol.Short, Protocol.UnlessAborted, Protocol.Close, Protocol.Goto;
      hide Final, Acts, Pool.AcquireWithin, LeaseSafety.Leases;
      NoUpdate(jobs.limits, jobs.model, j, now);
      var balance, nonce := running[j].phase.balance, running[j].phase.nonce;
      if balance < gasCost {
        EndShort(j, balance, gasCost, now, chain);
      } else {
        UnlessShuttingDown(j, Protocol.Instructing(nonce), chain);
      }
      StillLeases(c, Core(chain), Protocol.Estimated(j, gasCost));
    }

    method OnInstruction(j: JobId, now: int, ghost chain: seq<Protocol.Account>)
      requires Valid() && Protocol.Enabled(Core(chain), Protocol.Instructed(j))
      modifies this, pool, pool.workers, jobs, jobs.jobs.Values
      ensures Valid()
      ensures Performs(jobs.limits, old(Core(chain)), old(jobs.model),
                       Protocol.Instructed(j), now, Core(chain), jobs.model)
    {
      ghost var c := Core(chain);
      HolderHasWorker(j);
      hide Sound, Protocol.Short, Protocol.UnlessAborted, Protocol.Close, Protocol.Goto;
      hide Final, Acts, Pool.AcquireWithin, LeaseSafety.Leases;
      NoUpdate(jobs.limits, jobs.model, j, now);
      Suspend(j, Protocol.SendingRequest(running[j].phase.nonce), chain);
      StillLeases(c, Core(chain), Protocol.Instructed(j));
    }

    method OnRequestSent(j: JobId, now: int, ghost chain: seq<Protocol.Account>)
      requires Valid() && Protocol.Enabled(Core(chain), Protocol.RequestSent(j))
      modifies this, pool, pool.workers, jobs, jobs.jobs.Values
      ensures Valid()
      ensures Performs(jobs.limits, old(Core(chain)), old(jobs.model),
                       Protocol.RequestSent(j), now, Core(chain), jobs.model)
    {
      ghost var c := Core(chain);
      HolderHasWorker(j);
      hide Sound, Protocol.Short, Protocol.UnlessAborted, Protocol.Close, Protocol.Goto;
      hide Final, Acts, Pool.AcquireWithin, LeaseSafety.Leases;
      RecordBoth(j, Request, Await, now);
      Suspend(j, Protocol.AwaitingSignature(running[j].phase.nonce), chain);
      StillLeases(c, Core(chain), Protocol.RequestSent(j));
    }

    method OnSignature(j: JobId, now: int, ghost chain: seq<Protocol.Account>)
      requires Valid() && Protocol.Enabled(Core(chain), Protocol.Signed(j))
      modifies this, pool, pool.workers, jobs, jobs.jobs.Values
      ensures Valid()
      ensures Performs(jobs.limits, old(Core(chain)), old(jobs.model),
                       Protocol.Signed(j), now, Core(chain), jobs.model)
    {
      ghost var c := Core(chain);
      HolderHasWorker(j);
      hide Sound, Protocol.Short, Protocol.UnlessAborted, Protocol.Close, Protocol.Goto;
      hide Final, Acts, Pool.AcquireWithin, LeaseSafety.Leases;
      Record(j, Sign, now);
      Suspend(j, Protocol.Attaching(running[j].phase.nonce), chain);
      StillLeases(c, Core(chain), Protocol.Signed(j));
    }

    method OnSignatureTimeout(j: JobId, now: int, ghost chain: seq<Protocol.Account>)
      requires Valid() && Protocol.Enabled(Core(chain), Protocol.SignatureTimesOut(j))
      modifies this, pool, pool.workers, jobs, jobs.jobs.Values
      ensures Valid()
      ensures Performs(jobs.limits, old(Core(chain)), old(jobs.model),
                       Protocol.SignatureTimesOut(j), now, Core(chain), jobs.model)
    {
      ghost var c := Core(chain);
      HolderHasWorker(j);
      hide Sound, Protocol.Short, Protocol.UnlessAborted, Protocol.Close, Protocol.Goto;
      hide Final, Acts, Pool.AcquireWithin, LeaseSafety.Leases;
      EndFailed(j, Store.SignatureTimeout, now, chain);
      StillLeases(c, Core(chain), Protocol.SignatureTimesOut(j));
    }

    method OnAttached(j: JobId, matches: bool, now: int, ghost chain: seq<Protocol.Account>)
      requires Valid() && Protocol.Enabled(Core(chain), Protocol.Attached(j, matches))
      modifies this, pool, pool.workers, jobs, jobs.jobs.Values
      ensures Valid()
      ensures Performs(jobs.limits, old(Core(chain)), old(jobs.model),
                       Protocol.Attached(j, matches), now, Core(chain), jobs.model)
    {
      ghost var c := Core(chain);
      HolderHasWorker(j);
      hide Sound, Protocol.Short, Protocol.UnlessAborted, Protocol.Close, Protocol.Goto;
      hide Final, Acts, Pool.AcquireWithin, LeaseSafety.Leases;
      if matches {
        Record(j, Verify, now);
        Suspend(j, Protocol.Broadcasting(running[j].phase.nonce, false), chain);
      } else {
        EndFailed(j, Store.DerivationMismatch, now, chain);
      }
      StillLeases(c, Core(chain), Protocol.Attached(j, matches));
    }

    method OnSent(j: JobId, now: int, ghost chain: seq<Protocol.Account>)
      requires Valid() && Protocol.Enabled(Core(chain), Protocol.SendReturns(j))
      modifies this, pool, pool.workers, jobs, jobs.jobs.Values
      ensures Valid()
      ensures Performs(jobs.limits, old(Core(chain)), old(jobs.model),
                       Protocol.SendReturns(j), now, Core(chain), jobs.model)
    {
      ghost var c := Core(chain);
      HolderHasWorker(j);
      hide Sound, Protocol.Short, Protocol.UnlessAborted, Protocol.Close, Protocol.Goto;
      hide Final, Acts, Pool.AcquireWithin, LeaseSafety.Leases;
      Record(j, Move.Broadcast, now);
      Suspend(j, Protocol.Confirming(running[j].phase.nonce), chain);
      StillLeases(c, Core(chain), Protocol.SendReturns(j));
    }

    /** The node may have taken the transaction all the same. */
    method OnSendFailure(j: JobId, now: int, ghost chain: seq<Protocol.Account>)
      requires Valid() && Protocol.Enabled(Core(chain), Protocol.SendThrows(j))
      modifies this, pool, pool.workers, jobs, jobs.jobs.Values
      ensures Valid()
      ensures Performs(jobs.limits, old(Core(chain)), old(jobs.model),
                       Protocol.SendThrows(j), now, Core(chain), jobs.model)
    {
      ghost var c := Core(chain);
      HolderHasWorker(j);
      hide Sound, Protocol.Short, Protocol.UnlessAborted, Protocol.Close, Protocol.Goto;
      hide Final, Acts, Pool.AcquireWithin, LeaseSafety.Leases;
      EndUnknown(j, running[j].phase.nonce, Store.BroadcastFailed, now, chain);
      StillLeases(c, Core(chain), Protocol.SendThrows(j));
    }

    /** On success the lease goes back early, before the job waits for its respond. */
    method OnReceipt(j: JobId, success: bool, now: int, ghost chain: seq<Protocol.Account>)
      requires Valid() && Protocol.Enabled(Core(chain), Protocol.Receipt(j, success))
      modifies this, pool, pool.workers, jobs, jobs.jobs.Values
      ensures Valid()
      ensures Performs(jobs.limits, old(Core(chain)), old(jobs.model),
                       Protocol.Receipt(j, success), now, Core(chain), jobs.model)
    {
      ghost var c := Core(chain);
      HolderHasWorker(j);
      hide Sound, Protocol.Short, Protocol.UnlessAborted, Protocol.Close, Protocol.Goto;
      hide Final, Acts, Pool.AcquireWithin, LeaseSafety.Leases;
      if success {
        LeaveConfirmed(j, now, chain);
      } else {
        EndFailed(j, Store.TransactionReverted, now, chain);
      }
      StillLeases(c, Core(chain), Protocol.Receipt(j, success));
    }

    method OnConfirmTimeout(j: JobId, now: int, ghost chain: seq<Protocol.Account>)
      requires Valid() && Protocol.Enabled(Core(chain), Protocol.ConfirmTimesOut(j))
      modifies this, pool, pool.workers, jobs, jobs.jobs.Values
      ensures Valid()
      ensures Performs(jobs.limits, old(Core(chain)), old(jobs.model),
                       Protocol.ConfirmTimesOut(j), now, Core(chain), jobs.model)
    {
      ghost var c := Core(chain);
      HolderHasWorker(j);
      hide Sound, Protocol.Short, Protocol.UnlessAborted, Protocol.Close, Protocol.Goto;
      hide Final, Acts, Pool.AcquireWithin, LeaseSafety.Leases;
      EndUnknown(j, running[j].phase.nonce, Store.ConfirmationTimeout, now, chain);
      StillLeases(c, Core(chain), Protocol.ConfirmTimesOut(j));
    }

    // ---------------------------------------------------------------- the segments of a job without one

    method OnRespond(j: JobId, matches: bool, now: int, ghost chain: seq<Protocol.Account>)
      requires Valid() && Protocol.Enabled(Core(chain), Protocol.Responded(j, matches))
      modifies this, pool, pool.workers, jobs, jobs.jobs.Values
      ensures Valid()
      ensures Performs(jobs.limits, old(Core(chain)), old(jobs.model),
                       Protocol.Responded(j, matches), now, Core(chain), jobs.model)
    {
      ghost var c := Core(chain);
      HolderHasWorker(j);
      hide Sound, Protocol.Short, Protocol.UnlessAborted, Protocol.Close, Protocol.Goto;
      hide Final, Acts, Pool.AcquireWithin, LeaseSafety.Leases;
      EndResponded(j, matches, now, chain);
      StillLeases(c, Core(chain), Protocol.Responded(j, matches));
    }

    method OnRespondTimeout(j: JobId, now: int, ghost chain: seq<Protocol.Account>)
      requires Valid() && Protocol.Enabled(Core(chain), Protocol.RespondTimesOut(j))
      modifies this, pool, pool.workers, jobs, jobs.jobs.Values
      ensures Valid()
      ensures Performs(jobs.limits, old(Core(chain)), old(jobs.model),
                       Protocol.RespondTimesOut(j), now, Core(chain), jobs.model)
    {
      ghost var c := Core(chain);
      HolderHasWorker(j);
      LostRespond(c, j, now);
      hide Sound, Protocol.Close, Protocol.Step, Protocol.Enabled;
      hide Final, Ops, Acts, LeaseSafety.Leases;
      EndFailed(j, Store.RespondTimeout, now, chain);
      StillLeases(c, Core(chain), Protocol.RespondTimesOut(j));
    }

    /** The `catch` of `start`. */
    method Catch(j: JobId, now: int, ghost chain: seq<Protocol.Account>)
      requires Valid() && Protocol.Enabled(Core(chain), Protocol.Caught(j))
      modifies this, pool, pool.workers, jobs, jobs.jobs.Values
      ensures Valid()
      ensures Performs(jobs.limits, old(Core(chain)), old(jobs.model),
                       Protocol.Caught(j), now, Core(chain), jobs.model)
    {
      ghost var c := Core(chain);
      HolderHasWorker(j);
      hide Sound, Protocol.Short, Protocol.UnlessAborted, Protocol.Close, Protocol.Goto;
      hide Final, Acts, Pool.AcquireWithin, LeaseSafety.Leases;
      Record(j, Fail(ReasonOf(running[j].phase.cause)), now);
      Suspend(j, Protocol.Ended, chain);
      StillLeases(c, Core(chain), Protocol.Caught(j));
    }

    /** An await that rejects where `run` does not catch it. */
    method OnThrow(j: JobId, now: int, ghost chain: seq<Protocol.Account>)
      requires Valid() && Protocol.Enabled(Core(chain), Protocol.Throws(j))
      modifies this, pool, pool.workers, jobs, jobs.jobs.Values
      ensures Valid()
      ensures Performs(jobs.limits, old(Core(chain)), old(jobs.model),
                       Protocol.Throws(j), now, Core(chain), jobs.model)
    {
      ghost var c := Core(chain);
      HolderHasWorker(j);
      hide Sound, Protocol.Short, Protocol.UnlessAborted, Protocol.Close, Protocol.Goto;
      hide Final, Acts, Pool.AcquireWithin, LeaseSafety.Leases;
      NoUpdate(jobs.limits, jobs.model, j, now);
      Finally(j, Protocol.Throwing(Protocol.Unanticipated), chain);
      StillLeases(c, Core(chain), Protocol.Throws(j));
    }

    /** One balance of `refreshUnderfunded`, and on to the next worker marked short. */
    method OnRefreshed(j: JobId, balance: nat, now: int, ghost chain: seq<Protocol.Account>)
      requires Valid() && Protocol.Enabled(Core(chain), Protocol.Refreshed(j, balance))
      modifies this, pool, pool.workers, jobs, jobs.jobs.Values
      ensures Valid()
      ensures Performs(jobs.limits, old(Core(chain)), old(jobs.model),
                       Protocol.Refreshed(j, balance), now, Core(chain), jobs.model)
    {
      ghost var c := Core(chain);
      HolderHasWorker(j);
      hide Sound, Protocol.Short, Protocol.UnlessAborted, Protocol.Close, Protocol.Goto;
      hide Final, Acts, Pool.AcquireWithin, LeaseSafety.Leases;
      NoUpdate(jobs.limits, jobs.model, j, now);
      SameSize();
      hide Protocol.Refresh;
      RefreshAt(j, running[j].phase.at, balance, chain);
      StillLeases(c, Core(chain), Protocol.Refreshed(j, balance));
    }

    method AskLease(j: JobId, now: int, ghost chain: seq<Protocol.Account>)
      requires Valid() && Protocol.Enabled(Core(chain), Protocol.AsksLease(j))
      modifies this, pool, pool.workers, jobs, jobs.jobs.Values
      ensures Valid()
      ensures Performs(jobs.limits, old(Core(chain)), old(jobs.model),
                       Protocol.AsksLease(j), now, Core(chain), jobs.model)
    {
      ghost var c := Core(chain);
      HolderHasWorker(j);
      hide Sound, Protocol.Short, Protocol.UnlessAborted, Protocol.Close, Protocol.Goto;
      hide Final, Acts, Pool.AcquireWithin, LeaseSafety.Leases;
      NoUpdate(jobs.limits, jobs.model, j, now);
      if running[j].aborted {
        Finally(j, Protocol.Throwing(Protocol.ShuttingDown), chain);
      } else {
        Queue(j, chain);
      }
      StillLeases(c, Core(chain), Protocol.AsksLease(j));
    }

    /** The promise of `acquireWithin` settled. */
    method OnLease(j: JobId, now: int, ghost chain: seq<Protocol.Account>)
      requires Valid() && Protocol.Enabled(Core(chain), Protocol.LeaseSettles(j))
      modifies this, pool, pool.workers, jobs, jobs.jobs.Values
      ensures Valid()
      ensures Performs(jobs.limits, old(Core(chain)), old(jobs.model),
                       Protocol.LeaseSettles(j), now, Core(chain), jobs.model)
    {
      ghost var c := Core(chain);
      HolderHasWorker(j);
      hide Sound, Protocol.Short, Protocol.UnlessAborted, Protocol.Close, Protocol.Goto;
      hide Final, Acts, Pool.AcquireWithin, LeaseSafety.Leases;
      NoUpdate(jobs.limits, jobs.model, j, now);
      SameQueue();
      match pool.settled[running[j].ticket.value] {
        case Granted(at) =>
          Record(j, Lease, now);
          Take(j, at, chain);
        case Refused(reason) => Finally(j, Protocol.Throwing(Protocol.NoWorker(reason)), chain);
        case Abandoned => Finally(j, Protocol.Throwing(Protocol.Unanticipated), chain);
      }
      StillLeases(c, Core(chain), Protocol.LeaseSettles(j));
    }

    // ---------------------------------------------------------------- sweeps, timers, shutdown, admission

    /** `ensureAddresses` resolved: `reconcileQuarantined` takes its snapshot of the withheld workers. */
    method OnAddresses(j: JobId, ghost chain: seq<Protocol.Account>)
      requires Valid() && Protocol.Enabled(Core(chain), Protocol.Derived(j))
      modifies this`running, this`sweeps
      ensures Valid() && Core(chain) == Protocol.Step(old(Core(chain)), Protocol.Derived(j))
    {
      ghost var c := Core(chain);
      hide LeaseSafety.Leases;
      var todo := pool.QuarantinedPlaces();
      sweeps := sweeps[Protocol.OfJob(j) := Protocol.Sweep(todo, 0, None, None)];
      running := running[j := running[j].(phase := Protocol.Sweeping)];
      StillLeases(c, Core(chain), Protocol.Derived(j));
    }

    /** Bookkeeping: one of the two counts of a sweep came back; the loop has only bound it to a local variable. */
    method OnLatest(k: Protocol.SweepId, ghost chain: seq<Protocol.Account>)
      requires Valid() && Protocol.Enabled(Core(chain), Protocol.ReadLatest(k))
      modifies this`sweeps
      ensures Valid() && Core(chain) == Protocol.Step(old(Core(chain)), Protocol.ReadLatest(k))
      ensures sweeps[k].latest == Some(Protocol.Latest(chain[sweeps[k].todo[0]]))
    {
      ghost var c := Core(chain);
      hide LeaseSafety.Leases;
      sweeps := Protocol.Note(c, k, true).sweeps;
      StillLeases(c, Core(chain), Protocol.ReadLatest(k));
    }

    method OnPending(k: Protocol.SweepId, ghost chain: seq<Protocol.Account>)
      requires Valid() && Protocol.Enabled(Core(chain), Protocol.ReadPending(k))
      modifies this`sweeps
      ensures Valid() && Core(chain) == Protocol.Step(old(Core(chain)), Protocol.ReadPending(k))
      ensures sweeps[k].pending == Some(Protocol.Pending(chain[sweeps[k].todo[0]]))
    {
      ghost var c := Core(chain);
      hide LeaseSafety.Leases;
      sweeps := Protocol.Note(c, k, false).sweeps;
      StillLeases(c, Core(chain), Protocol.ReadPending(k));
    }

    /** Both counts of a sweep are in. */
    method OnCounts(k: Protocol.SweepId, at: Pool.Place, latest: nat, pending: nat, ghost chain: seq<Protocol.Account>)
      requires Valid() && Protocol.Enabled(Core(chain), Protocol.Verdict(k)) && at < |pool.workers|
      requires sweeps[k].todo[0] == at && sweeps[k].latest == Some(latest) && sweeps[k].pending == Some(pending)
      modifies this`sweeps, pool, pool.workers
      ensures Valid() && Core(chain) == Protocol.Step(old(Core(chain)), Protocol.Verdict(k))
    {
      ghost var c := Core(chain);
      hide LeaseSafety.Leases, Sound, Pool.Reconcile;
      Reconcile(at, pending > latest);
      sweeps := sweeps[k := Protocol.Sweep(sweeps[k].todo[1..], 0, None, None)];
      StillLeases(c, Core(chain), Protocol.Verdict(k));
    }

    /** The walk of `refreshBalances` that a request for the worker list makes. */
    method OpenSweep(request: nat, ghost chain: seq<Protocol.Account>)
      requires Valid() && Protocol.Enabled(Core(chain), Protocol.OpenSweep(request))
      modifies this`sweeps
      ensures Valid() && Core(chain) == Protocol.Step(old(Core(chain)), Protocol.OpenSweep(request))
    {
      ghost var c := Core(chain);
      hide LeaseSafety.Leases;
      var todo := pool.QuarantinedPlaces();
      sweeps := sweeps[Protocol.OfRequest(request) := Protocol.Sweep(todo, 0, None, None)];
      StillLeases(c, Core(chain), Protocol.OpenSweep(request));
    }

    method OnRequestedBalance(at: Pool.Place, balance: nat, ghost chain: seq<Protocol.Account>)
      requires Valid() && at < |pool.workers|
      modifies pool, pool.workers
      ensures Valid() && Core(chain) == Protocol.Step(old(Core(chain)), Protocol.RequestRefreshes(at, balance))
    {
      ghost var c := Core(chain);
      hide LeaseSafety.Leases, Sound, Protocol.Rebalanced;
      MarkBalance(at, balance, floor, chain);
      StillLeases(c, Core(chain), Protocol.RequestRefreshes(at, balance));
    }

    /** `reconcileQuarantined` resolved: the job that waited for it looks for short workers. */
    method OnSwept(k: Protocol.SweepId, ghost chain: seq<Protocol.Account>)
      requires Valid() && Protocol.Enabled(Core(chain), Protocol.SweepEnds(k))
      modifies this`running, this`sweeps
      ensures Valid() && Core(chain) == Protocol.Step(old(Core(chain)), Protocol.SweepEnds(k))
    {
      ghost var c := Core(chain);
      hide LeaseSafety.Leases, Protocol.NextShort;
      if k.OfJob? && k.job in running && running[k.job].phase.Sweeping? {
        var next := FindShort(0);
        running := running[k.job := running[k.job].(phase := Protocol.Refreshing(next))];
      }
      sweeps := sweeps - {k};
      StillLeases(c, Core(chain), Protocol.SweepEnds(k));
    }

    /** ... or rejected, and with it the `run` that waited for it. */
    method OnSweepFailure(k: Protocol.SweepId, ghost chain: seq<Protocol.Account>)
      requires Valid() && Protocol.Enabled(Core(chain), Protocol.SweepFails(k))
      modifies this`running, this`sweeps, pool, pool.workers
      ensures Valid() && Core(chain) == Protocol.Step(old(Core(chain)), Protocol.SweepFails(k))
    {
      ghost var c := Core(chain);
      if k.OfJob? && k.job in running { HolderHasWorker(k.job); }
      hide LeaseSafety.Leases, Sound, Protocol.Close;
      Forget(k);
      if k.OfJob? && k.job in running && running[k.job].phase.Sweeping? {
        Finally(k.job, Protocol.Throwing(Protocol.Unanticipated), chain);
      }
      StillLeases(c, Core(chain), Protocol.SweepFails(k));
    }

    method Forget(k: Protocol.SweepId)
      requires Sound()
      modifies this`sweeps
      ensures Sound() && sweeps == old(sweeps) - {k}
    {
      sweeps := sweeps - {k};
    }

    /** Bookkeeping: a node took the transaction of `j`. The process learns nothing yet. */
    method NoteAccepted(j: JobId, ghost chain: seq<Protocol.Account>)
      requires Valid() && Protocol.Enabled(Core(chain), Protocol.NodeAccepts(j))
      modifies this`running
      ensures Valid()
      ensures var d := Protocol.Step(old(Core(chain)), Protocol.NodeAccepts(j)); Core(d.chain) == d
    {
      ghost var c := Core(chain);
      hide LeaseSafety.Leases;
      running := running[j := running[j].(phase := Protocol.Broadcasting(running[j].phase.nonce, true))];
      StillLeases(c, Protocol.Step(c, Protocol.NodeAccepts(j)), Protocol.NodeAccepts(j));
    }

    /** The lease timer of a queued promise fires. */
    method OnLeaseTimer(t: Pool.Ticket, ghost chain: seq<Protocol.Account>)
      requires Valid() && Protocol.Enabled(Core(chain), Protocol.LeaseTimer(t))
      modifies pool
      ensures Valid() && Core(chain) == Protocol.Step(old(Core(chain)), Protocol.LeaseTimer(t))
    {
      ghost var c := Core(chain);
      hide LeaseSafety.Leases, Pool.WellFormed, Pool.Timeout;
      pool.OnTimer(t);
      StillLeases(c, Core(chain), Protocol.LeaseTimer(t));
    }

    method TellAll()
      requires Sound()
      modifies this`running
      ensures Sound()
      ensures running == map j | j in old(running) ::
        if Protocol.Over(old(running)[j].phase) then old(running)[j] else old(running)[j].(aborted := true)
    {
      running := map j | j in running ::
        if Protocol.Over(running[j].phase) then running[j] else running[j].(aborted := true);
    }

    method RejectAll()
      requires Sound()
      modifies pool
      ensures Sound() && pool.model == Pool.RejectWaiters(old(pool.model))
    {
      pool.RejectWaiters();
    }

    /** `abortActiveJobs`: every call that has not settled is told to stop, then the waiters are rejected. */
    method AbortActiveJobs(ghost chain: seq<Protocol.Account>)
      requires Valid()
      modifies this`running, pool
      ensures Valid() && Core(chain) == Protocol.Step(old(Core(chain)), Protocol.AbortAll)
    {
      ghost var c := Core(chain);
      hide LeaseSafety.Leases, Sound, Pool.RejectWaiters;
      TellAll();
      RejectAll();
      StillLeases(c, Core(chain), Protocol.AbortAll);
    }

    method CreateRecord(j: JobId, mode: Store.Mode, now: int)
      requires Sound()
      modifies jobs, jobs.jobs.Values
      ensures Sound() && jobs.model == Applied(old(jobs.model), jobs.limits, Admit(j, mode, now))
      ensures fresh(jobs.jobs.Values - old(jobs.jobs.Values))
    {
      hide Store.Create;
      jobs.Create(j, mode, now);
    }

    method Enroll(j: JobId)
      requires Sound()
      modifies this`running
      ensures Sound()
      ensures running == old(running)[j := Protocol.Proc(Protocol.Deriving, None, None, false, false)]
    {
      running := running[j := Protocol.Proc(Protocol.Deriving, None, None, false, false)];
    }

    /** `start`: the record is created and `run` begins. */
    method Start(j: JobId, mode: Store.Mode, now: int, ghost chain: seq<Protocol.Account>)
      requires Valid() && j !in running
      modifies this`running, jobs, jobs.jobs.Values
      ensures Valid() && Core(chain) == Protocol.Step(old(Core(chain)), Protocol.Start(j))
      ensures jobs.model == Applied(old(jobs.model), jobs.limits, Admit(j, mode, now))
    {
      ghost var c := Core(chain);
      hide LeaseSafety.Leases, Sound, Applied;
      CreateRecord(j, mode, now);
      Enroll(j);
      StillLeases(c, Core(chain), Protocol.Start(j));
    }

    /** The limiter's part of admission; it touches neither the jobs nor the pool. */
    method Charge(now: int, ghost chain: seq<Protocol.Account>) returns (retryAfterMs: Option<int>)
      requires Valid()
      modifies limiter
      ensures Valid() && Core(chain) == old(Core(chain)) && jobs.model == old(jobs.model)
      ensures retryAfterMs == Charged(limiter.limits, old(limiter.hits), now)
      ensures limiter.hits == HitsCharged(limiter.limits, old(limiter.hits), now)
    {
      hide LeaseSafety.Leases, Sound, Limiter.HitsAfter, Limiter.ReplyTo;
      var ok := limiter.TryAcquire(now);
      if ok { return None; }
      var ms := limiter.RetryAfterMs(now);
      return Some(ms);
    }

    /** The admission handler: capacity, then the limiter, then `start`. */
    method Submit(j: JobId, mode: Store.Mode, now: int, cfg: Config, ghost s: State) returns (r: Response)
      requires Valid() && cfg.limits == jobs.limits && cfg.rate == limiter.limits
      requires s.core == Core(s.core.chain) && s.store == jobs.model && s.hits == limiter.hits
      requires Enabled(s, Input.Submit(j, mode, now))
      modifies this`running, jobs, jobs.jobs.Values, limiter
      ensures Valid() && r == Answer(cfg, s, j, now)
      ensures var t := Submitted(cfg, s, j, mode, now);
        Core(s.core.chain) == t.core && jobs.model == t.store && limiter.hits == t.hits
    {
      hide LeaseSafety.Leases, Store.AtCapacity, Applied, Protocol.Step;
      AnswerIs(cfg, s, j, mode, now);
      var full := CheckCapacity();
      hide Valid, Sound, Answer, Submitted, Charged, HitsCharged;
      if full.Some? {
        var retryAfterMs := if full.value == Store.Active then 15_000 else 60_000;
        return Full(full.value, retryAfterMs);
      }
      var delay := Charge(now, s.core.chain);
      if delay.Some? { return Limited(delay.value); }
      Start(j, mode, now, s.core.chain);
      return Accepted(j);
    }

    method CheckCapacity() returns (full: Option<Store.Ceiling>)
      requires Valid()
      ensures full == Store.AtCapacity(jobs.model, jobs.limits)
    {
      full := jobs.AtCapacity();
    }
  }

  /** A network on which nothing of the service is outstanding. */
  ghost predicate StartsWith(addresses: nat, chain: seq<Protocol.Account>) {
    |chain| == addresses && forall i :: 0 <= i < |chain| ==> chain[i].outstanding == {}
  }

  /** The objects went through exactly one step: the core by the event, the store by its updates. */
  ghost predicate Performs(l: Store.Limits, c: Protocol.Core, st: Store.Store, e: Protocol.Event, now: int,
      d: Protocol.Core, next: Store.Store)
    requires Protocol.Enabled(c, e)
  {
    d == Protocol.Step(c, e) && next == Final(st, l, Ops(c, e, now))
  }

  function Queued(c: Protocol.Core, j: JobId): Protocol.Core
    requires j in c.procs
  {
    c.(pool := Pool.AcquireWithin(c.pool), callers := c.callers + [j],
       procs := c.procs[j := c.procs[j].(phase := Protocol.AwaitingLease, ticket := Some(c.pool.next))])
  }

  /** The limiter asked for a slot: the delay it names if it has none, and its hits afterwards. */
  function Charged(l: Limiter.Limits, hits: seq<int>, now: int): Option<int> {
    if Limiter.ReplyTo(l, hits, Limiter.TryAcquire(now)).ok then None
    else Some(Limiter.ReplyTo(l, Limiter.HitsAfter(l, hits, Limiter.TryAcquire(now)), Limiter.RetryAfter(now)).ms)
  }

  function HitsCharged(l: Limiter.Limits, hits: seq<int>, now: int): seq<int> {
    var asked := Limiter.HitsAfter(l, hits, Limiter.TryAcquire(now));
    if Limiter.ReplyTo(l, hits, Limiter.TryAcquire(now)).ok then asked
      else Limiter.HitsAfter(l, asked, Limiter.RetryAfter(now))
  }

  lemma AnswerIs(cfg: Config, s: State, j: JobId, mode: Store.Mode, now: int)
    requires j !in s.core.procs
    ensures var full, delay := Store.AtCapacity(s.store, cfg.limits), Charged(cfg.rate, s.hits, now);
      var t := Submitted(cfg, s, j, mode, now);
      if full.Some? then
        && Answer(cfg, s, j, now) == Full(full.value, if full.value == Store.Active then 15_000 else 60_000)
        && t.core == s.core && t.store == s.store && t.hits == s.hits
      else if delay.Some? then
        && Answer(cfg, s, j, now) == Limited(delay.value) && t.core == s.core && t.store == s.store
        && t.hits == HitsCharged(cfg.rate, s.hits, now)
      else
        && Answer(cfg, s, j, now) == Accepted(j) && t.core == Protocol.Step(s.core, Protocol.Start(j))
        && t.store == Applied(s.store, cfg.limits, Admit(j, mode, now)) && t.hits == HitsCharged(cfg.rate, s.hits, now)
  {
    hide Store.AtCapacity, Limiter.ReplyTo, Limiter.HitsAfter, Applied, Protocol.Step;
  }

  lemma RefusedEstimate(c: Protocol.Core, j: JobId, now: int)
    requires Protocol.Enabled(c, Protocol.InsufficientFunds(j))
    ensures j in c.procs && (c.procs[j].phase.ReadingNonce? || c.procs[j].phase.Estimating?)
    ensures var balance := c.procs[j].phase.balance;
      Protocol.Step(c, Protocol.InsufficientFunds(j)) == Protocol.Short(c, j, balance, balance + 1)
    ensures Ops(c, Protocol.InsufficientFunds(j), now) == Acts(j, [Fail(Store.PreflightUnderfunded)], now)
  {
    hide Protocol.Short, Acts;
  }

  lemma LostRespond(c: Protocol.Core, j: JobId, now: int)
    requires Protocol.Enabled(c, Protocol.RespondTimesOut(j))
    ensures j in c.procs && Protocol.Step(c, Protocol.RespondTimesOut(j)) == Protocol.Close(c, j, Protocol.Ended)
    ensures Ops(c, Protocol.RespondTimesOut(j), now) == Acts(j, [Fail(Store.RespondTimeout)], now)
  {
    hide Protocol.Close, Acts;
  }

  lemma NoUpdate(l: Store.Limits, st: Store.Store, j: JobId, now: int)
    ensures Final(st, l, Acts(j, [], now)) == st
  {
  }

  lemma OneUpdate(l: Store.Limits, st: Store.Store, j: JobId, m: Move, now: int)
    ensures Final(st, l, Acts(j, [m], now)) == Applied(st, l, Act(j, m, now))
  {
    assert Acts(j, [m], now) == [Act(j, m, now)];
  }

  lemma TwoUpdates(l: Store.Limits, st: Store.Store, j: JobId, a: Move, b: Move, now: int)
    ensures Final(st, l, Acts(j, [a, b], now)) == Final(Final(st, l, Acts(j, [a], now)), l, Acts(j, [b], now))
  {
    assert [a, b][1..] == [b];
    assert Acts(j, [a, b], now) == [Act(j, a, now)] + Acts(j, [b], now);
    assert Acts(j, [a, b], now)[1..] == Acts(j, [b], now);
    OneUpdate(l, st, j, a, now);
  }

  /** The leases do not depend on the network. */
  lemma StillLeases(c: Protocol.Core, d: Protocol.Core, e: Protocol.Event)
    requires LeaseSafety.Leases(c.(chain := [])) && Protocol.Enabled(c, e) && d == Protocol.Step(c, e)
    ensures LeaseSafety.Leases(d.(chain := []))
  {
    hide LeaseSafety.Leases, Protocol.Enabled, Protocol.Step;
    LeaseSafety.OnlyJobsAndPool(c.(chain := []), c);
    LeaseSafety.StepKeepsLeases(c, e);
    LeaseSafety.OnlyJobsAndPool(d, d.(chain := []));
  }
}
