/**
 * What becomes of jobs that are told to stop: those that reach a check between two phases are
 * thrown out there; a job still queued for an address is rejected by the pool instead, and ends
 * as `internal_error`.
 */
module ShutdownRecords {
  import opened Options
  import Pool = PoolModel
  import Protocol = JobProtocol
  import Store = StoreModel
  import opened StoreSafety
  import opened Service
  import opened ServiceSafety
  import opened ServiceRuns
  import opened ServiceLifecycle
  import LeaseSafety
  import LeaseTheorems

  // ------------------------------------------------------------------ one step

  /** Job `j` was told to stop, and the event takes it to a check between two phases. */
  predicate StopsAtCheck(c: Protocol.Core, e: Protocol.Event, j: JobId)
    requires Protocol.Enabled(c, e)
  {
    && j in c.procs && c.procs[j].aborted
    && match e
       case AsksLease(k) => k == j
       case BalanceRead(k, balance) => k == j && balance >= c.floor
       case Estimated(k, gasCost) => k == j && Protocol.PhaseOf(c, j).balance >= gasCost
       case _ => false
  }

  lemma ResumeStops(c: Protocol.Core, e: Protocol.Event)
    requires Protocol.Resumes(e) && Protocol.Enabled(c, e)
    ensures NextPhase(c, e) == Protocol.Throwing(Protocol.ShuttingDown) <==> StopsAtCheck(c, e, e.job)
  {
  }

  lemma WalkStops(c: Protocol.Core, e: Protocol.Event, j: JobId)
    requires Protocol.Enabled(c, e) && Walks(e) && OwnerOf(e) == Some(j) && j in c.procs
    requires !Protocol.Over(c.procs[j].phase)
    ensures j in Protocol.Step(c, e).procs
    ensures Protocol.Step(c, e).procs[j].phase == Protocol.Throwing(Protocol.ShuttingDown) <==> StopsAtCheck(c, e, j)
  {
    hide Protocol.Close, Pool.AcquireWithin;
    CloseMoves(c, j, Protocol.Throwing(Protocol.Unanticipated));
    CloseMoves(c, j, Protocol.Throwing(Protocol.ShuttingDown));
    if e.SweepFails? || e.SweepEnds? {
      CloseMoves(c.(sweeps := c.sweeps - {e.sweep}), j, Protocol.Throwing(Protocol.Unanticipated));
    } else if e.LeaseSettles? {
      SettlementStops(c, j);
    }
  }

  lemma SettlementStops(c: Protocol.Core, j: JobId)
    requires Protocol.Enabled(c, Protocol.LeaseSettles(j))
    ensures j in Protocol.SettleLease(c, j).procs
    ensures Protocol.SettleLease(c, j).procs[j].phase != Protocol.Throwing(Protocol.ShuttingDown)
  {
    hide Protocol.Close;
    match c.pool.settled[c.procs[j].ticket.value]
    case Granted(_) =>
    case Refused(reason) => CloseMoves(c, j, Protocol.Throwing(Protocol.NoWorker(reason)));
    case Abandoned => CloseMoves(c, j, Protocol.Throwing(Protocol.Unanticipated));
  }

  /**
   * A job that is not over is thrown out as shutting down in exactly the steps that take it, told to stop, to a
   * check: before the lease, after a balance that is no reason to fail, after a gas cost it can pay.
   */
  lemma ShuttingDownExactlyWhen(c: Protocol.Core, e: Protocol.Event, j: JobId)
    requires Protocol.Enabled(c, e) && !e.Start? && j in c.procs && !Protocol.Over(c.procs[j].phase)
    ensures j in Protocol.Step(c, e).procs
    ensures Protocol.Step(c, e).procs[j].phase == Protocol.Throwing(Protocol.ShuttingDown) <==> StopsAtCheck(c, e, j)
  {
    hide Protocol.Resume, NextPhase, Moves;
    if OwnerOf(e) != Some(j) {
      OthersPhase(c, e, j);
    } else if Walks(e) {
      WalkStops(c, e, j);
    } else {
      ResumeMoves(c, e);
      ResumeStops(c, e);
    }
  }

  // ------------------------------------------------------------------ who is told to stop

  /** Only the shutdown tells a job to stop, and only one that has neither been rejected nor ended. */
  lemma StepTells(c: Protocol.Core, e: Protocol.Event, j: JobId)
    requires Protocol.Enabled(c, e) && j in c.procs
    ensures j in Protocol.Step(c, e).procs
    ensures Protocol.Step(c, e).procs[j].aborted
      <==> c.procs[j].aborted || (e.AbortAll? && !c.procs[j].phase.Throwing? && !c.procs[j].phase.Ended?)
  {
    hide Pool.Release, Pool.AcquireWithin;
    if Protocol.Resumes(e) { ResumeTellsNobody(c, e, j); }
  }

  /** The step that tells job `j` to stop, somewhere in the run. */
  ghost predicate EverTold(c: Protocol.Core, es: seq<Protocol.Event>, j: JobId)
    requires Protocol.Possible(c, es)
    decreases |es|
  {
    es != []
    && ((es[0].AbortAll? && j in c.procs && !c.procs[j].phase.Throwing? && !c.procs[j].phase.Ended?)
        || EverTold(Protocol.Step(c, es[0]), es[1..], j))
  }

  lemma StartsUntold(c: Protocol.Core, e: Protocol.Event, j: JobId)
    requires Protocol.Enabled(c, e) && j !in c.procs && j in Protocol.Step(c, e).procs
    ensures !Protocol.Step(c, e).procs[j].aborted
  {
    if !e.Start? {
      hide Protocol.Step, Protocol.Enabled;
      NobodyNew(c, e);
    }
  }

  lemma {:induction false} RunTells(c: Protocol.Core, es: seq<Protocol.Event>, j: JobId)
    requires Protocol.Possible(c, es) && j in Protocol.After(c, es).procs
    ensures Protocol.After(c, es).procs[j].aborted <==> (j in c.procs && c.procs[j].aborted) || EverTold(c, es, j)
    decreases |es|
  {
    hide Protocol.Step, Protocol.Enabled;
    if es != [] {
      var d := Protocol.Step(c, es[0]);
      RunTells(d, es[1..], j);
      if j in c.procs { StepTells(c, es[0], j); } else if j in d.procs { StartsUntold(c, es[0], j); }
    }
  }

  /** In every run from a fresh start a job is told to stop if and only if the shutdown came while it was going on. */
  lemma ToldExactlyWhenGoingOn(c: Protocol.Core, es: seq<Protocol.Event>, j: JobId)
    requires Protocol.Init(c) && Protocol.Possible(c, es) && j in Protocol.After(c, es).procs
    ensures Protocol.After(c, es).procs[j].aborted <==> EverTold(c, es, j)
  {
    assert c.procs == map[];
    hide Protocol.Init, Protocol.Possible, Protocol.After, EverTold;
    RunTells(c, es, j);
  }

  // ------------------------------------------------------------------ a job queued at shutdown

  /** Job `j` waits for an address in the pool's queue. */
  predicate IsQueued(c: Protocol.Core, j: JobId) {
    && j in c.procs && c.procs[j].phase.AwaitingLease?
    && c.procs[j].ticket.Some? && c.procs[j].ticket.value in c.pool.waiters
  }

  /** The promise of job `j` was abandoned: it still has to learn of it, or was rejected for it, or has ended. */
  ghost predicate Abandoned(c: Protocol.Core, j: JobId) {
    && j in c.procs
    && var pr := c.procs[j];
       || (pr.phase.AwaitingLease? && pr.ticket.Some? && pr.ticket.value in c.pool.settled
           && c.pool.settled[pr.ticket.value] == Pool.Abandoned)
       || pr.phase == Protocol.Throwing(Protocol.Unanticipated)
       || pr.phase.Ended?
  }

  lemma QueuedIsAbandoned(c: Protocol.Core, j: JobId)
    requires IsQueued(c, j)
    ensures Abandoned(Protocol.Abort(c), j)
  {
  }

  /** All that an abandoned job still does: its promise rejects and the rejection is caught; no sweep resumes it. */
  lemma AbandonedDoes(c: Protocol.Core, e: Protocol.Event, j: JobId)
    requires Protocol.Enabled(c, e) && !e.Start? && Abandoned(c, j) && OwnerOf(e) == Some(j)
    ensures e == Protocol.LeaseSettles(j) || e == Protocol.Caught(j) || e.SweepEnds? || e.SweepFails?
    ensures c.procs[j].phase.Ended? ==> e.SweepEnds? || e.SweepFails?
  {
  }

  lemma OwnStepAbandoned(c: Protocol.Core, e: Protocol.Event, j: JobId)
    requires Protocol.Enabled(c, e) && !e.Start? && Abandoned(c, j) && OwnerOf(e) == Some(j)
    ensures Abandoned(Protocol.Step(c, e), j)
    ensures Moves(c, e) == [] || Moves(c, e) == [Fail(Store.InternalError)]
    ensures c.procs[j].phase.Ended? ==> Moves(c, e) == []
  {
    AbandonedDoes(c, e, j);
    hide Protocol.Close, OwnerOf;
    CloseMoves(c, j, Protocol.Throwing(Protocol.Unanticipated));
  }

  lemma StepAbandoned(c: Protocol.Core, e: Protocol.Event, j: JobId)
    requires LeaseSafety.Leases(c) && Protocol.Enabled(c, e) && !e.Start? && Abandoned(c, j)
    ensures Abandoned(Protocol.Step(c, e), j)
    ensures OwnerOf(e) == Some(j) ==> Moves(c, e) == [] || Moves(c, e) == [Fail(Store.InternalError)]
  {
    hide Protocol.Step, Moves, LeaseSafety.Leases, Protocol.Enabled;
    if OwnerOf(e) == Some(j) {
      OwnStepAbandoned(c, e, j);
    } else {
      OthersPhase(c, e, j);
      TicketStays(c, e, j);
      if c.procs[j].phase.AwaitingLease? { LeaseTheorems.StepKeepsSettled(c, e, c.procs[j].ticket.value); }
    }
  }

  lemma TicketStays(c: Protocol.Core, e: Protocol.Event, j: JobId)
    requires Protocol.Enabled(c, e) && !e.Start? && j in c.procs && OwnerOf(e) != Some(j)
    ensures j in Protocol.Step(c, e).procs && Protocol.Step(c, e).procs[j].ticket == c.procs[j].ticket
  {
    if OwnerOf(e).Some? { LeaseTheorems.OthersStay(c, e, j); }
  }

  predicate ActiveOrInternalError(r: Store.Job) {
    Store.IsActive(r.state) || (r.state.Failed? && r.failure == Some(Store.InternalError))
  }

  /** ... and its record, while it is kept, is active or failed as `internal_error`. */
  ghost predicate EndsAsInternalError(s: State, j: JobId) {
    && Abandoned(s.core, j)
    && (j in s.store.jobs ==> ActiveOrInternalError(s.store.jobs[j]))
  }

  lemma AfterInternalError(j: Store.Job, now: int)
    ensures PatchedAll(j, [Fail(Store.InternalError)], now).state.Failed?
    ensures PatchedAll(j, [Fail(Store.InternalError)], now).failure == Some(Store.InternalError)
    ensures PatchedAll(j, [], now) == j
  {
  }

  lemma EventEndsAsInternalError(cfg: Config, s: State, e: Protocol.Event, now: int, j: JobId)
    requires Inv(cfg, s) && Enabled(s, Happens(e, now)) && EndsAsInternalError(s, j)
    ensures EndsAsInternalError(Step(cfg, s, Happens(e, now)), j)
  {
    hide Protocol.Step, Protocol.Enabled, Moves, Ops, Final, Follows, PatchedAll, Agrees, Metered, Counted, Sound,
      Abandoned;
    StepAbandoned(s.core, e, j);
    EventKeepsInv(cfg, s, e, now);
    if j in Step(cfg, s, Happens(e, now)).store.jobs {
      RecordAfter(cfg.limits, s.clock, s.store, e, s.core, now, j);
      AfterInternalError(s.store.jobs[j], now);
    }
  }

  lemma SubmitKeepsOthers(cfg: Config, s: State, k: JobId, mode: Store.Mode, now: int, j: JobId)
    requires Store.WellFormed(s.store) && Enabled(s, Submit(k, mode, now)) && j in s.core.procs
    ensures var t := Submitted(cfg, s, k, mode, now);
      && j in t.core.procs && t.core.procs[j] == s.core.procs[j] && t.core.pool == s.core.pool
      && (j in t.store.jobs ==> j in s.store.jobs && t.store.jobs[j] == s.store.jobs[j])
  {
    hide Store.WellFormed, Store.Create, Store.AtCapacity;
    CreateTouches(s.store, cfg.limits.retained, k, mode, now);
  }

  lemma StepEndsAsInternalError(cfg: Config, s: State, i: Input, j: JobId)
    requires Inv(cfg, s) && Enabled(s, i) && EndsAsInternalError(s, j)
    ensures EndsAsInternalError(Step(cfg, s, i), j)
  {
    SoundIsWellFormed(cfg, s);
    hide Inv, Store.WellFormed, Submitted, Protocol.Enabled, Protocol.Step;
    match i
    case Submit(k, mode, now) => SubmitKeepsOthers(cfg, s, k, mode, now, j);
    case Ask(_, _) =>
    case Happens(e, now) => EventEndsAsInternalError(cfg, s, e, now, j);
  }

  lemma {:induction false} RunEndsAsInternalError(cfg: Config, s: State, ins: seq<Input>, j: JobId)
    requires Inv(cfg, s) && Possible(cfg, s, ins) && EndsAsInternalError(s, j)
    ensures EndsAsInternalError(After(cfg, s, ins), j)
    decreases |ins|
  {
    hide Inv, Step, Enabled, EndsAsInternalError;
    if ins != [] {
      StepEndsAsInternalError(cfg, s, ins[0], j);
      StepKeepsInv(cfg, s, ins[0]);
      RunEndsAsInternalError(cfg, Step(cfg, s, ins[0]), ins[1..], j);
    }
  }

  /**
   * Whatever runs after the shutdown: a job that was queued for an address when it came is abandoned, rejected as
   * unanticipated, or ended; and its record is active or failed as `internal_error`, never as `shutdown`.
   */
  lemma QueuedAtShutdown(cfg: Config, s: State, now: int, ins: seq<Input>, j: JobId)
    requires Inv(cfg, s) && s.clock <= now && IsQueued(s.core, j)
    requires Possible(cfg, s, [Happens(Protocol.AbortAll, now)] + ins)
    ensures EndsAsInternalError(After(cfg, s, [Happens(Protocol.AbortAll, now)] + ins), j)
  {
    var all := [Happens(Protocol.AbortAll, now)] + ins;
    assert all[1..] == ins && all[0] == Happens(Protocol.AbortAll, now);
    AbortIs(cfg, s, now);
    hide Inv, EndsAsInternalError, Step, Enabled, Protocol.Abort;
    StepKeepsInv(cfg, s, all[0]);
    JustAborted(cfg, s, now, j);
    RunEndsAsInternalError(cfg, Step(cfg, s, all[0]), ins, j);
  }

  lemma AbortIs(cfg: Config, s: State, now: int)
    requires s.clock <= now
    ensures Enabled(s, Happens(Protocol.AbortAll, now))
    ensures Step(cfg, s, Happens(Protocol.AbortAll, now)) == s.(core := Protocol.Abort(s.core), clock := now)
  {
    hide Protocol.Abort;
  }

  lemma JustAborted(cfg: Config, s: State, now: int, j: JobId)
    requires Inv(cfg, s) && IsQueued(s.core, j)
    ensures EndsAsInternalError(s.(core := Protocol.Abort(s.core), clock := now), j)
  {
    hide Inv, Abandoned, Protocol.Abort, JobOk;
    QueuedIsAbandoned(s.core, j);
    StoreFits(cfg, s, j);
  }
}
