# Verification of the bidirectional job engine

The service accepts jobs that each lease one of a few Ethereum addresses, have a transaction
signed by an MPC network through Solana, broadcast and confirm it, and wait for the network's
respond. Every `await` in the job body is an interleaving point, so many jobs share the address
pool, the job store, the rate limiter and the chain. This project models that engine in Dafny
and proves what every interleaving keeps. `dafny verify dfyconfig.toml` checks it.

## How it is laid out

Objects the code mutates are classes, each proved against a value specification; what the code
promises is proved about the specification and about runs of it.

| files | what they hold |
|---|---|
| `Options`, `Sequences`, `Integers` | shared vocabulary |
| `PoolModel`, `PoolFairness`, `WorkerPool` | the address pool as a value, its theorems, and the class over worker objects and a waiter queue |
| `JobProtocol` | `run` as a step machine: phases, local variables, sweeps, and an abstract account for every address (mined ledger, outstanding transactions) |
| `LeaseSafety`, `LeaseTheorems` | lease exclusivity, release exactly once, shutdown |
| `PoolRuns`, `ShortAddresses`, `AddressFigures`, `SweepCoverage` | the pool calls a run makes, so that the pool's theorems hold of it; when an address is held back as short of funds or withheld, and when it comes back; what the worker list shows of it |
| `ChainSafety`, `QuarantineSafety`, `StaleClear`, `RequestNonces` | nonce safety, the two-read quarantine sweep, the run that breaks it, and which requests carry one nonce |
| `StoreModel`, `StoreSafety`, `StoreCeilings`, `JobStore` | the job store as a value, its bounds and lifecycle, tightness of the live bound, and the class over mutable records |
| `RateLimiter` | the class, the full-log limiter it refines, and the exact retry delay |
| `Service`, `ServiceSafety`, `ServiceRuns`, `ServiceTheorems`, `ServiceLifecycle`, `ServiceNonces`, `ServicePool`, `ShutdownRecords`, `MinedOnce` | jobs, store, limiter and clock together: runs of the whole service and its promises, up to what a record says about the ledgers |
| `Endings`, `Milestones` | how a job ends and what decides it, and when things happened to it: what its record says, step by step of the run |
| `Admission` | which ceiling a refusal names, what lifts it, when the limiter lets the next request through, and what the settings come to |
| `ServiceScenarios`, `ServiceCeilings`, `ShutdownRun` | runs of the service built from runs of the jobs: both ceilings filled, and a job queued at shutdown |
| `BidirectionalService` | the service as a class over the other classes: one method for each segment of `run` between two awaits, each proved to be one step of the state machine |
| `Derivation` | the memoized promise of `ensureAddresses` |
| `FundingSweep`, `FundingVerdicts` | the decide, send and verify parts of the funding script, and exactly when each of its messages is the one |
| `Stats`, `Reports` | percentiles and counts of `/stats`, and each figure against the records of the store |

An event of `JobProtocol` is the code between two awaits together with what the await yielded
(a balance, a receipt, a timeout, a throw); those values are parameters, and so are the clock and
the drawn job id. Three fields of the pool model are bookkeeping the service does not store: the
order of grants, a worker's lessee, and its quarantine epoch; `Service` adds the time each job was
accepted and the log of accepted hits.

## What is assumed

- The clock does not run backwards and is read once per atomic segment.
- A chain read returns the current state; a node refuses a nonce that is already mined.
- A broadcast that throws has already been accepted or refused.
- The ledger of an address only grows (no reorganisation undoes a mined transaction), and a dropped
  transaction never comes back.
- `waitForEvent` rejects once its signal is aborted.
- Job ids (random UUIDs) are distinct; addresses of different paths are distinct.
- One service instance uses the addresses, it starts with nothing of its own outstanding, and
  nobody else sends from them.
- In the funding sweep no worker address spends between its transfer and the final check (the script
  itself allows for a live service there, by checking a scheduled sweep against the floor), nobody
  else spends from the wallet, and the fee of a transfer stays within the estimate
  (`21000 * maxFeePerGas`, section "Specification" of EIP-1559; 21000 is G_transaction in Appendix G
  of the Ethereum Yellow Paper). Nonce validity is section 6 of the Yellow Paper.
- Percentile ranks are taken over the rationals.

## What the code does not guarantee

Each of these is proved: the exact condition, for all runs or inputs, and where it helps a concrete run.

- `setBalance` and `reconcile` can make a worker eligible without a hand-off, so a waiter can be left
  beside an eligible address (`QuietRun` says exactly when not), and a later arrival can overtake it
  (`OvertakenAfterReconcile`; `NoOvertaking` says exactly when not).
- A sweep that spans a clear, a new lease and a newer quarantine clears the newer one too and two
  transactions can share a nonce (`StaleClearReusesNonce`; `NonceSafetyOfRuns` says exactly when not).
- An address marked short of a transaction's actual gas is judged against the floor again by the
  next job, and comes back if it holds that much (`ShortForGasComesBack`; `ComesBackExactlyWhen` and
  `NoWalkSkipsShort` say exactly when).
- A job still queued for an address at shutdown is recorded as `internal_error`, not `shutdown`
  (`QueuedEndsAsInternalError`; `QueuedAtShutdown` says so of every continuation, and
  `ShutdownRecordedExactlyWhen` exactly which jobs are recorded as `shutdown`).
- `maxJobs` alone does not bound the live jobs; `maxActiveJobs + maxJobs - 1` does, and is reached
  (`LiveBoundIsReached`; `MaxJobsBoundsExactlyWhen` says exactly when `maxJobs` does).
- Addresses listed twice in a funding run are funded twice, past the target and possibly past the
  per-address cap (`DuplicatesOverfund`; `FilledExactlyWhenDistinct` and `CapHoldsExactlyWhen` say
  exactly when not).
- After a signature timeout the same nonce may be offered in a second signing request, so nonce
  safety speaks of broadcasts, not of requests (`SignatureTimeoutRepeatsNonce`;
  `NonceRepeatsExactlyWhenNothingMined` says exactly when).

## Model

| member | source | states |
|---|---|---|
| `ServiceNonces.ServiceIsNonceSafe` | src/handlers/signBidirectional.ts:269-473 | In every state of every run of the whole service in which no clear spans a newer quarantine, an address has at most one unresolved transaction, at the next nonce of its account and owned by the lease holder or by the quarantine; what a node takes next is alone on its address and takes the next nonce |
| `ServiceNonces.NonceSafetyOfService` | src/handlers/signBidirectional.ts:206-531 | A run of the whole service keeps every address nonce-safe in every state if and only if each clear in it happens while no more transactions of the address are pending than mined |
| `MinedOnce.ConfirmedMeansMinedOnce` | src/handlers/signBidirectional.ts:441-473 | In every run of the service, nonce-safe or not: once a record says confirmed or responded, in that and every later state the transaction of its job stands exactly once on the ledger of the address it leased and on no other |
| `MinedOnce.MinedAtMostOnce` | src/handlers/signBidirectional.ts:421-439 | In every run a job has at most one transaction, outstanding or mined, on at most one address |
| `ServiceNonces.RunsAreProtocolRuns` | src/handlers/signBidirectional.ts:206-531 | Forgetting store, limiter and clock turns every run of the service into a run of the job protocol ending in the same core, so theorems about the protocol hold of the service |
| `QuarantineSafety.NonceSafety` | src/handlers/signBidirectional.ts:161-175 | The same for the job protocol alone, with the two transaction counts of a sweep read at separate moments and acted on later |
| `QuarantineSafety.NonceSafetyOfRuns` | src/utils/workerPool.ts:202-218 | A run keeps every address nonce-safe in every state if and only if each clear in it happens while the pending count does not exceed the mined count |
| `QuarantineSafety.FreshRunsAreTimely` | src/handlers/signBidirectional.ts:161-175 | Within one quarantine epoch a verdict is timely however far apart the two counts and the clear are, whether the transaction was mined or dropped |
| `QuarantineSafety.FreshIsTimely` | src/handlers/signBidirectional.ts:161-175 | The single step of it: a clear in the epoch its first count was read in happens with nothing outstanding |
| `QuarantineSafety.StepKeepsSweeps` | src/handlers/signBidirectional.ts:161-175 | Counts already read keep saying what they said under every other step while the epoch lasts |
| `QuarantineSafety.VerdictIsExact` | src/utils/workerPool.ts:202-218 | Counts read together return a withheld worker if and only if nothing of it is outstanding |
| `StaleClear.StaleClearReusesNonce` | src/handlers/signBidirectional.ts:161-175 | A concrete run in which a sweep spans a clear, a new lease and a newer quarantine and two unmined transactions end up with one nonce: the guarantee needs the epoch condition |
| `ChainSafety.BroadcastIsAlone` | src/utils/bidirectionalTx.ts:150-159 | A job about to broadcast signed the `latest` count of its address, and nothing of the service is outstanding there |
| `ChainSafety.StepKeepsInv` | src/handlers/signBidirectional.ts:206-531 | Every step but an untimely clear keeps the account of every address sound: outstanding transactions belong to the lease holder past its broadcast, or the worker is withheld |
| `ChainSafety.UntimelyClearIsUnsafe` | src/utils/workerPool.ts:213-218 | A clear while something is outstanding always breaks nonce safety at once |
| `ChainSafety.InvIsNonceSafe` | src/utils/workerPool.ts:92-117 | The invariant gives nonce safety |
| `LeaseTheorems.LeasesAreExclusive` | src/utils/workerPool.ts:92-117 | In every reachable state busy workers and the jobs that hold a lease (granted but not yet resumed waiters included) are in bijection: a worker is busy exactly when some job occupies it, no two jobs share a worker and no job has two; and once all jobs are over no worker is busy |
| `LeaseTheorems.BusyWorkersAreOccupied` | src/utils/workerPool.ts:164-183 | The correspondence in both directions, with uniqueness of job and of worker |
| `LeaseTheorems.OnlyTheHolderReleases` | src/handlers/signBidirectional.ts:230-235 | A lessee leaves its worker only in the step of its own job and only with that lease marked as given back, so the `finally` release never frees a worker leased on to somebody else |
| `LeaseTheorems.LeaseGivenBackExactlyOnce` | src/handlers/signBidirectional.ts:525-530 | Seen at the pool: over the whole run of a job that is over, its lease ended in exactly one step if it ever got one, in none otherwise, and its own run released it exactly as often |
| `LeaseTheorems.EndsExactlyWhenGivenBack` | src/handlers/signBidirectional.ts:230-235 | A lease of a job ends at the pool in exactly the steps in which that job gives it back |
| `LeaseTheorems.ShutdownHolds` | src/handlers/signBidirectional.ts:545-555 | At shutdown the queue empties at once; whatever runs afterwards, a job told to stop that has no lease or grant never gets one, and one not past the last check never sends its Solana request |
| `LeaseTheorems.StepKeepsSettled` | src/utils/workerPool.ts:143-161 | No step changes how a settled promise was settled |
| `LeaseSafety.RunKeepsLeases` | src/handlers/signBidirectional.ts:206-531 | The lease invariant in every state of every run |
| `LeaseSafety.StepKeepsLeases` | src/handlers/signBidirectional.ts:206-531 | Each of the 34 kinds of step keeps it: tickets belong to their callers, a job past its lease holds exactly the worker its ticket was granted, queued tickets belong to suspended jobs |
| `PoolModel.HandOffPairs` | src/utils/workerPool.ts:173-183 | `handOff` gives the k-th waiter the k-th eligible worker, until one of the two runs out; nobody else changes |
| `PoolModel.ApplyKeeps` | src/utils/workerPool.ts:80-218 | Every pool operation keeps: each arrival is queued or settled and never both, the queue is in arrival order, a busy worker has exactly the lessee it was granted to |
| `PoolModel.WithoutIs` | src/utils/workerPool.ts:145-146 | A timeout takes its own waiter out of the queue, wherever it stands, and keeps the order of the others |
| `PoolFairness.ReleaseQuiets` | src/utils/workerPool.ts:164-183 | After any `release` either the queue is empty or no worker is eligible |
| `PoolFairness.QuietStep` | src/utils/workerPool.ts:131-218 | From a state with no lost wake-up, the next has none if and only if the step is not a `setBalance`/`reconcile` that makes a worker eligible beside a queue |
| `PoolFairness.QuietRun` | src/utils/workerPool.ts:131-218 | The same for whole runs: quiet throughout if and only if no step of it wakes silently |
| `PoolFairness.QueueIsFifo` | src/utils/workerPool.ts:131-183 | Among the waiters that had to queue, leases are granted in arrival order in every run |
| `PoolFairness.NoOvertaking` | src/utils/workerPool.ts:92-162 | Over every run of pool calls nobody is ever overtaken if and only if nobody arrives while others queue beside an eligible address |
| `PoolFairness.OrderedStep` | src/utils/workerPool.ts:92-162 | One call lets somebody overtake if and only if it is such an arrival |
| `PoolFairness.QuietRunIsOrdered` | src/utils/workerPool.ts:131-183 | A run without a silent wake-up grants in arrival order |
| `PoolFairness.WokenInOrder` | src/utils/workerPool.ts:213-218 | A concrete run with a silent wake-up in which nobody is overtaken: the two properties differ |
| `PoolFairness.OvertakenAfterReconcile` | src/utils/workerPool.ts:213-218 | A concrete run in which a `reconcile` frees a worker beside a queue and the next arrival overtakes the waiter |
| `PoolFairness.SettledOnce` | src/utils/workerPool.ts:143-188 | Ever arrived = granted + refused + abandoned + still queued, in every run, and a settled promise never changes |
| `PoolFairness.SettledStays` | src/utils/workerPool.ts:143-188 | One operation never re-settles a promise |
| `PoolFairness.RefusalSaysWhetherWaitingHelps` | src/utils/workerPool.ts:92-117 | When nobody is eligible: `all_underfunded` is the reason if and only if every worker is underfunded, `all_busy` if and only if some sequence of releases and reconciles hands somebody an address |
| `PoolFairness.PatienceDoesNotRefill` | src/utils/workerPool.ts:119-130 | With every worker underfunded no sequence of calls other than `setBalance` hands out another lease |
| `PoolRuns.StepMakes` | src/handlers/signBidirectional.ts:206-531 | Every step of the jobs moves the pool by exactly the pool calls its segment makes |
| `PoolRuns.RunMakes` | src/handlers/signBidirectional.ts:206-531 | So every run of the jobs is, at the pool, a run of pool calls, and the theorems about all call sequences hold of it |
| `PoolRuns.StepQuiet` | src/utils/workerPool.ts:131-218 | From a state with no lost wake-up a step of the jobs causes one if and only if it makes an idle address eligible beside a queue |
| `PoolRuns.QuietExactlyWhenNeverWoken` | src/utils/workerPool.ts:131-218 | The same for every run of the jobs |
| `PoolRuns.OrderedExactlyWhenNeverPassed` | src/utils/workerPool.ts:92-162 | Over every run of the jobs nobody is ever overtaken if and only if no job asks for an address, and gets one, while others queue |
| `WorkerPool.WorkerPool.SetBalance` | src/utils/workerPool.ts:80-85 | The mutable pool follows the value operation; an unknown path changes nothing |
| `WorkerPool.WorkerPool.Acquire` | src/utils/workerPool.ts:92-117 | Takes the first eligible worker and no other, or reports why there is none |
| `WorkerPool.WorkerPool.AcquireWithin` | src/utils/workerPool.ts:131-162 | Grants at once, refuses at once, or queues with a timer armed |
| `WorkerPool.WorkerPool.OnTimer` | src/utils/workerPool.ts:144-148 | The timer removes its waiter by index and refuses it as `all_busy` |
| `WorkerPool.WorkerPool.Release` | src/utils/workerPool.ts:164-168 | Frees the worker found by path and hands off |
| `WorkerPool.WorkerPool.HandOff` | src/utils/workerPool.ts:173-183 | The loop terminates and equals the value hand-off |
| `WorkerPool.WorkerPool.RejectWaiters` | src/utils/workerPool.ts:186-188 | Abandons every queued promise and no other |
| `WorkerPool.WorkerPool.Quarantine` | src/utils/workerPool.ts:197-200 | Withholds the worker under the nonce |
| `WorkerPool.WorkerPool.Reconcile` | src/utils/workerPool.ts:213-218 | Clears the nonce only when nothing is outstanding |
| `WorkerPool.WorkerPool.QuarantinedPlaces` | src/utils/workerPool.ts:220-222 | The snapshot lists exactly the withheld workers, in order |
| `WorkerPool.PathsDistinct` | src/utils/workerPool.ts:225-226 | The `prefix-i` paths are pairwise distinct, so lookup by path is lookup of the worker |
| `WorkerPool.PathsAreNumbered` | src/utils/workerPool.ts:225-226 | The path at index i is the prefix, a dash and a numeral without leading zero whose digits have the value i, counted from 0 |
| `WorkerPool.DecimalInjective` | src/utils/workerPool.ts:225-226 | Decimal rendering of the index is injective |
| `BidirectionalService.BidirectionalService.constructor` | src/handlers/signBidirectional.ts:65-87 | Mainnet gets its fixed ceilings, its rate of one and a single path whatever the settings are, other environments what is configured; the new service is an initial state of the state machine |
| `BidirectionalService.BidirectionalService.Submit` | src/index.ts:195-242 | The admission handler on the real objects: answers and leaves store, limiter and jobs exactly as the admission step says |
| `BidirectionalService.BidirectionalService.Start` | src/handlers/signBidirectional.ts:178-204 | Creates the record and begins the run |
| `BidirectionalService.BidirectionalService.OnAddresses` | src/handlers/signBidirectional.ts:237-239 | After derivation the job starts a sweep over a snapshot of the withheld workers |
| `BidirectionalService.BidirectionalService.OnLatest` | src/handlers/signBidirectional.ts:161-175 | The `latest` count of a sweep comes back: the step that notes it |
| `BidirectionalService.BidirectionalService.OnPending` | src/handlers/signBidirectional.ts:161-175 | So does the `pending` count, in either order |
| `BidirectionalService.BidirectionalService.OnCounts` | src/handlers/signBidirectional.ts:161-175 | With both counts in, the verdict acts on them by path |
| `BidirectionalService.BidirectionalService.OnSwept` | src/handlers/signBidirectional.ts:161-175 | The end of a sweep moves its job on to the refresh |
| `BidirectionalService.BidirectionalService.OnSweepFailure` | src/handlers/signBidirectional.ts:161-175 | A sweep that rejects rejects the run |
| `BidirectionalService.BidirectionalService.OpenSweep` | src/handlers/signBidirectional.ts:125-133 | A sweep started by a request for the worker list |
| `BidirectionalService.BidirectionalService.OnRequestedBalance` | src/handlers/signBidirectional.ts:125-133 | A balance read by such a request |
| `BidirectionalService.BidirectionalService.OnRefreshed` | src/handlers/signBidirectional.ts:144-151 | One worker of `refreshUnderfunded` re-judged against the floor, and on to the next one marked short |
| `BidirectionalService.BidirectionalService.AskLease` | src/handlers/signBidirectional.ts:243-244 | Checks for shutdown, then calls `acquireWithin` |
| `BidirectionalService.BidirectionalService.OnLease` | src/handlers/signBidirectional.ts:244-249 | A grant is recorded with its time; a refusal or abandonment rejects the run |
| `BidirectionalService.BidirectionalService.OnBalance` | src/handlers/signBidirectional.ts:256-269 | Below the floor the address is marked, the job failed and the lease given back; otherwise the shutdown check |
| `BidirectionalService.BidirectionalService.OnNonce` | src/handlers/signBidirectional.ts:269-279 | The nonce signed is the `latest` count |
| `BidirectionalService.BidirectionalService.OnInsufficientFunds` | src/handlers/signBidirectional.ts:280-289 | The node refuses to estimate: marked short by one wei, failed, released |
| `BidirectionalService.BidirectionalService.OnGasCost` | src/handlers/signBidirectional.ts:291-321 | Short of the actual gas: marked against it, failed, released; otherwise the check before the request |
| `BidirectionalService.BidirectionalService.OnInstruction` | src/handlers/signBidirectional.ts:322-342 | Builds and sends the request |
| `BidirectionalService.BidirectionalService.OnRequestSent` | src/handlers/signBidirectional.ts:342-391 | `sign_sent` and then `awaiting_signature` in one segment |
| `BidirectionalService.BidirectionalService.OnSignature` | src/handlers/signBidirectional.ts:393-405 | The signature time is recorded |
| `BidirectionalService.BidirectionalService.OnSignatureTimeout` | src/handlers/signBidirectional.ts:396-404 | Failed as `signature_timeout`, lease given back |
| `BidirectionalService.BidirectionalService.OnAttached` | src/handlers/signBidirectional.ts:408-418 | Verified, or failed as `derivation_mismatch` |
| `BidirectionalService.BidirectionalService.OnSent` | src/handlers/signBidirectional.ts:421-439 | `broadcast` and its time |
| `BidirectionalService.BidirectionalService.OnSendFailure` | src/handlers/signBidirectional.ts:426-434 | A throwing broadcast withholds the address before the lease goes back |
| `BidirectionalService.BidirectionalService.OnConfirmTimeout` | src/handlers/signBidirectional.ts:441-455 | So does an unconfirmed one |
| `BidirectionalService.BidirectionalService.OnReceipt` | src/handlers/signBidirectional.ts:457-473 | Success records `confirmed` and gives the lease back early; a revert fails the job |
| `BidirectionalService.BidirectionalService.OnRespond` | src/handlers/signBidirectional.ts:504-524 | The respond is recorded and compared |
| `BidirectionalService.BidirectionalService.OnRespondTimeout` | src/handlers/signBidirectional.ts:493-502 | Failed as `respond_timeout` |
| `BidirectionalService.BidirectionalService.OnThrow` | src/handlers/signBidirectional.ts:525-530 | A rejection `run` does not catch leaves through the `finally` block |
| `BidirectionalService.BidirectionalService.Catch` | src/handlers/signBidirectional.ts:180-202 | The `catch` of `start` records the reason of the error class |
| `BidirectionalService.BidirectionalService.Finally` | src/handlers/signBidirectional.ts:525-530 | Gives the lease back unless it already was |
| `BidirectionalService.BidirectionalService.ReleaseLease` | src/handlers/signBidirectional.ts:230-235 | Releases at most once |
| `BidirectionalService.BidirectionalService.EndUnknown` | src/handlers/signBidirectional.ts:426-455 | Withhold, fail, release, in that order |
| `BidirectionalService.BidirectionalService.UnlessShuttingDown` | src/handlers/signBidirectional.ts:224-228 | The phase-boundary check |
| `BidirectionalService.BidirectionalService.OnLeaseTimer` | src/utils/workerPool.ts:144-148 | A lease timer as an event of the service |
| `BidirectionalService.BidirectionalService.AbortActiveJobs` | src/handlers/signBidirectional.ts:545-555 | Tells every unsettled run to stop, then rejects the waiters |
| `Derivation.DerivesOnce` | src/handlers/signBidirectional.ts:101-123 | However callers interleave, two derivations are never under way together, a caller during one gets that one, and a call starts a new one if and only if all earlier ones failed |
| `Derivation.SuccessIsKept` | src/handlers/signBidirectional.ts:101-123 | Once a derivation succeeds no other is ever made and every later caller gets its result |
| `Derivation.NobodyGetsAFailure` | src/handlers/signBidirectional.ts:101-123 | A caller is given a derivation that is under way or has succeeded, never one that has failed |
| `Derivation.AddressMemo.EnsureAddresses` | src/handlers/signBidirectional.ts:101-123 | The mutable field follows the value operation |
| `Derivation.AddressMemo.OnEnd` | src/handlers/signBidirectional.ts:116-121 | A failure forgets the promise, a success keeps it |
| `StoreModel.SurvivesIff` | src/jobs/store.ts:113-122 | Pruning keeps a record if and only if it is live or fewer than `retained` finished records come after it; what it keeps is unchanged |
| `StoreModel.SortedFinished` | src/jobs/store.ts:113-122 | The sorted list holds every finished record once, in eviction order with insertion order breaking ties |
| `StoreSafety.PruneKeeps` | src/jobs/store.ts:113-122 | Pruning leaves the live records alone and at most `retained` finished ones |
| `StoreSafety.DroppedFinishedFirst` | src/jobs/store.ts:113-122 | Nothing dropped finished later than anything kept |
| `StoreSafety.RetentionGoesByFinish` | src/jobs/store.ts:113-122 | A finished record survives if and only if fewer than `retained` finished records carry a later `finishedAt`, or the same one and a later creation |
| `StoreSafety.CountsAddUp` | src/jobs/store.ts:135-160 | Every record is active, awaiting its respond, or finished |
| `StoreSafety.MoveKeepsJob` | src/jobs/store.ts:197-216 | An update moves a sound record one edge of the state diagram, rewrites no timestamp, and keeps stamps a non-decreasing prefix of the stage order, `finishedAt` exactly on terminal records and a reason exactly on failed ones |
| `StoreSafety.DurationsFit` | src/jobs/store.ts:77-92 | A terminal record's present stage durations are non-negative and sum to at most its total |
| `StoreSafety.RunIsSound` | src/jobs/store.ts:135-216 | Over every legal run of admissions and updates: ceilings, live bound, retention bound and record soundness |
| `StoreSafety.StoreIsBounded` | src/jobs/store.ts:94-122 | The whole store never exceeds `retained + maxActiveJobs + maxJobs - 1` records (positive ceilings) |
| `StoreCeilings.LiveBoundIsReached` | src/jobs/store.ts:168-172 | The live bound is tight for every pair of positive ceilings |
| `JobStore.JobStore.Prune` | src/jobs/store.ts:113-122 | Filter, stable sort and deletions on the mutable map equal the value operation |
| `JobStore.JobStore.All` | src/jobs/store.ts:193-195 | The records in insertion order |
| `JobStore.JobStore.ActiveCount` | src/jobs/store.ts:135-147 | The loop counts the active records |
| `JobStore.JobStore.AwaitingRespondCount` | src/jobs/store.ts:150-156 | The loop counts the confirmed records |
| `JobStore.JobStore.LiveCount` | src/jobs/store.ts:158-160 | Their sum is the number of live records |
| `JobStore.JobStore.AtCapacity` | src/jobs/store.ts:168-172 | The ceiling reached, the active one first |
| `JobStore.JobStore.Create` | src/jobs/store.ts:174-185 | Adds a pending record at the end and prunes |
| `JobStore.JobStore.Update` | src/jobs/store.ts:197-207 | Assigns in place, merges timings, prunes only when the record is finished; an unknown id changes nothing |
| `JobStore.JobStore.Fail` | src/jobs/store.ts:209-216 | Failed, with reason and time |
| `JobStore.JobStore.ViewOf` | src/jobs/store.ts:187-191 | The record with its durations, or nothing |
| `ServiceSafety.EventFollows` | src/handlers/signBidirectional.ts:206-531 | Whatever an event does to the jobs, the store follows by a legal run of updates of that job's record alone, and the records keep showing where their jobs are |
| `ServiceRuns.RunKeepsInv` | src/handlers/signBidirectional.ts:178-531 | The invariant of the whole service in every run |
| `ServiceTheorems.CapacityHolds` | src/handlers/signBidirectional.ts:74-82 | In every reachable state: active jobs within `maxActiveJobs`, live jobs within `maxActiveJobs + maxJobs - 1` (none if a ceiling is zero), finished ones within `retained`, and the store within the sum |
| `ServiceCeilings.MaxJobsBoundsExactlyWhen` | src/handlers/signBidirectional.ts:74-82 | `maxJobs` bounds the live jobs in every run of the service if and only if at most one job may be active, or a limit is zero so that none is accepted |
| `ServiceCeilings.LiveBoundIsReached` | src/handlers/signBidirectional.ts:74-82 | A run of the whole service, limiter and pool of one address included, that reaches `maxActiveJobs + maxJobs - 1` live jobs, for all positive limits |
| `ServiceTheorems.ResourceCoupling` | src/handlers/signBidirectional.ts:466-473 | At every scheduling point busy workers plus queued waiters are at most the active jobs, which are at most `maxActiveJobs` |
| `ServiceTheorems.RecordsAreSound` | src/jobs/store.ts:197-216 | Every record of every reachable state is sound and a finished one's durations fit |
| `ServiceTheorems.JobsPerWindow` | src/index.ts:229-242 | At most `k * limit` jobs are accepted in any `k` windows, going by the acceptance times in the records |
| `ServiceTheorems.AdmissionIsExact` | src/index.ts:200-242 | A request is accepted if and only if neither ceiling is reached and fewer than `limit` jobs were accepted in the last window; a capacity refusal costs no slot |
| `Admission.RefusalNamesCeiling` | src/index.ts:200-222 | The refusal says `active`, with a delay of 15 s, if and only if the jobs that are neither confirmed nor over reach `maxActiveJobs`; it says `awaiting_respond`, with 60 s, if and only if they do not and the confirmed ones reach `maxJobs` |
| `Admission.EachCeilingHasItsRemedy` | src/index.ts:201-205 | Raising the named ceiling lifts the refusal exactly when it comes to lie above the count; whatever is done to the other ceiling, raised or for `active` even lowered, leaves it as it is |
| `Admission.DelayIsExact` | src/index.ts:229-240 | The delay a rate refusal names is exact: with nothing in between, the next request is accepted if and only if it comes no earlier; with a limit of zero it names a whole window and nothing is ever accepted |
| `Admission.AdmissionFollowsSettings` | src/handlers/signBidirectional.ts:65-87 | Over every run, admission told by the settings themselves: their ceilings and rate off mainnet; one active job, two waiting ones and one a minute on it |
| `Admission.SettingsAreBounds` | src/handlers/signBidirectional.ts:65-87 | Over every run off mainnet: active jobs, addresses in use, live jobs, retained records and arrivals per minute stay within the setting of each |
| `Admission.SettingsAreBudgets` | src/handlers/signBidirectional.ts:353-502 | In runs whose waits end within their budgets the recorded signature wait, confirmation wait and respond timeout keep to the setting of each |
| `ServiceTheorems.MainnetIsBounded` | src/handlers/signBidirectional.ts:70-86 | No setting lets mainnet exceed two live jobs, one active job, one address in use or one job a minute |
| `ServiceTheorems.ReportsAgree` | src/jobs/stats.ts:76-118 | In every reachable state the report adds up; busy plus waiting is at most its active count; the limiter figure is the number of jobs accepted in the last window and the delay is zero exactly when one more fits; all addresses show as underfunded exactly when a lease is refused for that |
| `Endings.EndsExactlyWhenDecided` | src/handlers/signBidirectional.ts:178-524 | Over every run of the service and for each ending: a record says `responded` if and only if some step was the expected respond, and fails with a given reason if and only if some step was the one that reason is for (an unexpected respond, a timeout of its own wait, a revert, a throwing broadcast, a foreign sender, a balance below the floor or the gas cost, a check reached while told to stop, the lease timer, a lease asked of an all-short pool, a rejection nobody anticipated) |
| `Endings.OneEndingEach` | src/handlers/signBidirectional.ts:178-524 | ... and a job that has ended was decided on exactly once: for some ending and for no two |
| `Endings.ShutdownRecordedExactlyWhen` | src/handlers/signBidirectional.ts:224-228 | Over every run of the service: the record of an ended job says `shutdown` if and only if some step took that job, already told to stop, to one of the three checks between phases |
| `ShutdownRecords.ToldExactlyWhenGoingOn` | src/handlers/signBidirectional.ts:545-555 | Over every run: a job is told to stop if and only if the shutdown came while it had started and was neither rejected nor ended |
| `Milestones.StampsAreTimes` | src/jobs/store.ts:197-216 | Over every run of the service: each timestamp of a record is the clock of the step it is named after (admission, the grant of the lease, the request, the signature, the broadcast, the successful receipt, the respond, the last step), and is missing if and only if no such step was taken |
| `Milestones.DurationsAreSpans` | src/jobs/store.ts:77-92 | So in a view `leaseWaitMs` is grant minus acceptance, `signatureMs` signature minus request, `confirmationMs` successful receipt minus broadcast, `respondMs` respond minus receipt, `totalMs` last step minus acceptance; each is absent if and only if one of its two steps was not taken |
| `Milestones.ModesAreAsked` | src/jobs/store.ts:174-185 | Over every run of the service a record carries the mode its accepted request asked for |
| `ShutdownRecords.ShuttingDownExactlyWhen` | src/handlers/signBidirectional.ts:224-228 | One step: a job that is not over is thrown out as shutting down if and only if it was told to stop and the step is its lease request, its balance read at or above the floor, or its gas cost that the balance covers |
| `ShutdownRecords.QueuedAtShutdown` | src/handlers/signBidirectional.ts:545-555 | A job queued for an address at shutdown: however the service goes on, its record is active or failed as `internal_error`, never `shutdown` |
| `ShutdownRun.QueuedEndsAsInternalError` | src/handlers/signBidirectional.ts:545-555 | A concrete run of the whole service, for every configuration that allows two active jobs: the second job queues for the only address, the shutdown comes, and its record ends as `internal_error` |
| `ShortAddresses.ComesBackExactlyWhen` | src/handlers/signBidirectional.ts:144-151 | Over all events: an address marked short stops being short in a step if and only if that step is the walk of a job standing at it, or a request for the worker list, reading at least the floor there |
| `ShortAddresses.StepShort` | src/utils/workerPool.ts:80-85 | Who is short after any event: the reread address by its balance against the floor, every other one as before or because a job just failed on it |
| `ShortAddresses.NoWalkSkipsShort` | src/handlers/signBidirectional.ts:144-151 | Over runs: before a job asks for its lease, every address that was short ahead of its walk was reread on the way, by the job itself or by somebody who found it at the floor, whatever the other jobs did in between |
| `ShortAddresses.WalkGoesOn` | src/handlers/signBidirectional.ts:144-151 | A walk starts at the first short address, and from each one it goes on ahead to the next, passing over none that is short |
| `ShortAddresses.BalanceIsRead` | src/handlers/signBidirectional.ts:256-296 | Over every run: the balance a gas cost is held against is the one that job last read for its address |
| `AddressFigures.StepWithholds` | src/utils/workerPool.ts:197-218 | Over all events: after a step an address is withheld for what it was before, except that a step in which its job throws at the broadcast or gives up on the confirmation withholds it for the nonce of that job, and a verdict with no more pending than mined gives it back |
| `AddressFigures.StepShowsBalance` | src/utils/workerPool.ts:80-85 | Over all events: the balance shown changes only where a short address is reread, a request reads it, or a job fails on it, and then to what was read |
| `AddressFigures.LeasesAreCounted` | src/utils/workerPool.ts:92-117 | Over every run: the lease count of an address is the number of requests that were granted it |
| `SweepCoverage.NoSweepSkipsWithheld` | src/handlers/signBidirectional.ts:153-175 | Over runs: before a job asks for its lease, every address withheld when its sweep began has been judged by that sweep, whatever the other jobs did in between |
| `SweepCoverage.SnapshotAscends` | src/utils/workerPool.ts:220-222 | A sweep takes the withheld workers in the order of the pool |
| `SweepCoverage.RequestSweepsAll` | src/handlers/signBidirectional.ts:125-133 | Over runs: a sweep started by a request for the worker list that does not fail ends only when every address withheld at its start has been judged |
| `ShortAddresses.ShortForGasComesBack` | src/handlers/signBidirectional.ts:291-296 | A concrete run: an address is marked short of a gas cost and the walk of the next job makes it eligible again on the same balance |
| `RequestNonces.NonceRepeatsExactlyWhenNothingMined` | src/handlers/signBidirectional.ts:269-342 | In every run without an untimely clear, the later of two requests at one address carries the nonce of the earlier plus the number of transactions of that address mined in between: the same nonce if and only if none was |
| `RequestNonces.SignatureTimeoutRepeatsNonce` | src/handlers/signBidirectional.ts:396-404 | A concrete run: a job requests a signature, times out, and the next job at the address requests one for the same nonce |
| `ServicePool.WaitersAreServed` | src/utils/workerPool.ts:131-188 | In every run of the service the pool is what its calls make of a fresh one, waiters are granted in arrival order, and every arrival is granted, refused, abandoned or queued |
| `ServicePool.NobodyOvertakes` | src/utils/workerPool.ts:92-218 | In every run of the service: nobody is ever overtaken if and only if no job asks for an address, and gets one, while others queue; nobody ever waits beside an eligible address if and only if no sweep or refresh makes one eligible beside a queue; and the second implies the first |
| `ServicePool.AddressesAreExclusive` | src/utils/workerPool.ts:92-117 | The lease bijection in every reachable state of the whole service |
| `ServicePool.LeaseEndsOnce` | src/handlers/signBidirectional.ts:525-530 | In every run of the service the pool ends exactly one lease of a job that is over, or it never had one |
| `ServiceLifecycle.NeverRegresses` | src/handlers/signBidirectional.ts:178-204 | Between any two states of a run a record only advances, its timestamps stay, a finished record never changes and a record goes only once its job has ended |
| `ServiceLifecycle.RespondBudget` | src/handlers/signBidirectional.ts:353-502 | In runs whose waits end within their budgets a respond wait that times out does so between `confirmedAt + respondTimeoutMs` less the time spent attaching and broadcasting, and `confirmedAt + respondTimeoutMs`, up to the reaction delay `lag` |
| `RateLimiter.RateLimiter.TryAcquire` | src/utils/rateLimiter.ts:23-28 | The mutable limiter follows the value operation |
| `RateLimiter.RateLimiter.RetryAfterMs` | src/utils/rateLimiter.ts:31-40 | So does the delay |
| `RateLimiter.RateLimiter.Used` | src/utils/rateLimiter.ts:42-45 | And the count |
| `RateLimiter.RateLimiter.Prune` | src/utils/rateLimiter.ts:17-20 | The shifting loop equals the value prune |
| `RateLimiter.RefinesFullLog` | src/utils/rateLimiter.ts:17-45 | On every monotone history the pruned list answers each call as a limiter that forgets nothing |
| `RateLimiter.WindowBound` | src/utils/rateLimiter.ts:23-28 | Any window holds at most `limit` accepted hits |
| `RateLimiter.AdmissionRate` | src/utils/rateLimiter.ts:23-28 | Any `k` windows hold at most `k * limit`, from a fresh limiter |
| `RateLimiter.RetryAfterIsExact` | src/utils/rateLimiter.ts:31-40 | With no accept in between, every attempt before `now + r` fails and the one at `now + r` succeeds exactly when the limit is positive, whatever other calls prune meanwhile |
| `RateLimiter.FiguresAreExact` | src/jobs/stats.ts:104-107 | Asked for both figures at one time: the first counts what was accepted in the window that ends now, and the second is zero if and only if that is below a positive limit |
| `FundingSweep.Run` | scripts/fund-workers.ts:351-459 | The decide, send and verify steps equal the specification, and the wallet keeps its reserve whenever anything was sent |
| `FundingSweep.SendsExactlyWhenSafe` | scripts/fund-workers.ts:267-409 | Money moves if and only if the target is above the floor, some address is below it, no address could be sent more than the cap, the run is within its cap, and the reserve survives every way the transfers may be answered |
| `FundingSweep.WalletGuardIsExact` | scripts/fund-workers.ts:387-404 | The wallet guard passes if and only if the reserve holds after every prefix of answers with fees within the estimate: it asks for enough and for no more |
| `FundingSweep.SendAll` | scripts/fund-workers.ts:418-429 | The loop keeps source >= reserve + remaining value + remaining gas budget |
| `FundingSweep.ReserveThroughout` | scripts/fund-workers.ts:391-429 | The same after any number of answers, reverts and lost transactions included |
| `FundingSweep.SweepConserves` | scripts/fund-workers.ts:418-429 | What leaves the wallet is on the addresses or was paid in fees |
| `FundingSweep.PlanIsExact` | scripts/fund-workers.ts:351-356 | Each listing of an address below the target, and nothing else, is one transfer of exactly what it lacks |
| `FundingSweep.FilledExactlyWhenDistinct` | scripts/fund-workers.ts:351-429 | When all transfers succeed every address ends at max(old, target) if and only if no address below the target is listed twice |
| `FundingSweep.CapHoldsExactlyWhen` | scripts/fund-workers.ts:262-276 | What an address receives in a successful run stays within the per-address cap if and only if its listings times what it lacks do; one listing always does |
| `FundingSweep.SweepFunds` | scripts/fund-workers.ts:351-459 | Over distinct addresses a successful run is reported as funded, respects the per-address and per-run caps and the reserve, and leaves a second run nothing to send |
| `FundingSweep.VerdictIsExact` | scripts/fund-workers.ts:432-459 | The run is reported as funded if and only if every receipt arrived and no address is below the level asked for; the reserve alarm never fires |
| `FundingVerdicts.RefusalsAreExact` | scripts/fund-workers.ts:267-409 | One condition for each verdict of a run that sends nothing, in balances and limits: a target not above the floor; one above the cap; every listed address at the target; what they lack together above the cap of a run; the reserve unsafe; a dry run. Such a run changes no balance |
| `FundingVerdicts.OutcomesAreExact` | scripts/fund-workers.ts:418-459 | One condition for each verdict of a run that sends: interrupted if and only if some transfer has no receipt; otherwise the reserve alarm if and only if it was broken, which takes fees beyond the estimate; otherwise still short, naming every listing below the level asked for in the order of the list and no other, or funded if there is none |
| `FundingVerdicts.WalletNeeds` | scripts/fund-workers.ts:387-404 | The reserve is safe if and only if the wallet holds what the addresses lack, 21000 gas for each transfer at the estimated price, and the reserve |
| `FundingVerdicts.PlanFollowsList` | scripts/fund-workers.ts:351-356 | The transfers go to the listings below the target, in the order of the list, each for what its address lacks |
| `FundingVerdicts.PaidExactly` | scripts/fund-workers.ts:418-429 | After any answers an address holds what it held plus the transfers to it that were mined and succeeded, and nothing else |
| `FundingVerdicts.FundedMeans` | scripts/fund-workers.ts:244-261 | What `funded` promises: a caller that named a top-up finds at least that on every address, a scheduled run leaves none below the lease floor; and it is what a run over distinct addresses reports when every transfer succeeds |
| `FundingSweep.FloorIsCovered` | scripts/fund-workers.ts:351-356 | No address below the lease floor is left out of a plan |
| `FundingSweep.DuplicatesOverfund` | scripts/fund-workers.ts:159-162 | An address listed twice ends above the target and above the per-address cap |
| `Stats.SummaryIsRanked` | src/jobs/stats.ts:4-28 | For every sample list: the least sample, the greatest, and for p = 5, 50, 95 a sample v with at most p percent of the samples below it and more than p percent not above it, whatever the order of the samples; and min <= p05 <= p50 <= p95 <= max |
| `Stats.PercentileIsOne` | src/jobs/stats.ts:4-11 | There is only one such sample, so these figures are the percentiles and nothing else is |
| `Stats.CountBy` | src/jobs/stats.ts:70-74 | The counting loop equals the number of occurrences of each value |
| `Stats.TallyCounts` | src/jobs/stats.ts:70-74 | Counts over all possible values sum to the number of values |
| `Stats.BuildStats` | src/jobs/stats.ts:76-118 | On the store, limiter and pool objects: the loops build the specified report, limiter figures and underfunded count included, and change nothing but the limiter, which prunes |
| `Stats.StatsAgree` | src/jobs/stats.ts:76-118 | Total = active + awaiting + responded + failed = sum of state counts = sum of per-mode totals; failure reasons sum to the failed jobs |
| `Reports.CountsAreExact` | src/jobs/stats.ts:76-101 | The count of a state is the number of records in it, of a reason the number of records that failed for it, of a mode the number of records of it, with those that responded and those that failed; a key is there if and only if its count is not zero |
| `Reports.AllIsInOrder` | src/jobs/store.ts:193-195 | The list the report is made from is the records in the order they were created in |
| `Reports.LatenciesAreExact` | src/jobs/stats.ts:38-68 | Each latency of a mode describes the spans between the two stamps of its stage over the records of that mode that have both, and the total over the successful ones alone: how many there are, the least, the greatest, and the three percentiles by how many records took less |
| `Reports.PoolIsExact` | src/jobs/stats.ts:108-116 | The pool figures are the number of places that are leased, of places that are short, of places and of waiters |

## Left out

- Solana, Anchor, signet.js and viem internals: their results are nondeterministic event parameters.
- Express routing, secrets, JSON shapes, logging, `/ping`, `/eth_balance`, process signals: input and output.
- `src/utils/env.ts`: settings are natural numbers given to the constructors, `respondTimeoutMs` after its default has been chosen.
- The rest of a refusal's body: the counts it repeats, and the limits it reports, which are the configured ones on mainnet too, where others are in force.
- `crossCheck`, argument parsing, derivation and printing in `scripts/fund-workers.ts`: network-driven or output.
- `lastLeasedAt`, which nothing reads, and the text fields of job records (path, hashes, request id, error text).
- `setAddress`: the job model treats `ensureAddresses` as one await that resolves or throws (its memoization is in `Derivation`); a worker whose address is not derived yet is not modelled, so the two checks for the empty address never skip one.
- The waiter object: a promise is a ticket number, its callbacks are the entry in `settled`.
- The two counts of a sweep arrive in either order but each sweep handles one worker at a time, as the loop does; mining, dropping and acceptance are steps of the network and have no method in `BidirectionalService` beyond a bookkeeping one.
- In `/stats` the `environment` field, which is a constant of the service.
- `ServiceLifecycle.RespondBudget` counts a job told to stop as out of scope, because its wait ends when it is told, not when a budget runs out.
- Liveness of awaits (that a pending await ever settles): only the bounds of the timers are modelled.
- `scripts/loadtest.ts` drives a running service over HTTP, `scripts/fund-config.ts` prints configuration, and the client wrappers forward to libraries: none holds state of the engine.
