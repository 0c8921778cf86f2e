/** What lease exclusivity means for callers, and what shutdown guarantees, over every run. */
module LeaseTheorems {
  import opened Options
  import opened PoolModel
  import opened JobProtocol
  import opened LeaseSafety
  import PoolFairness

  // ------------------------------------------------------------------ the bijection

  /** Job `j` has worker `i`: it holds it, or its grant is settled and it has not resumed yet. */
  ghost predicate Occupies(c: Core, j: JobId, i: Place) {
    && j in c.procs
    && var pr := c.procs[j];
       || (Holding(pr.phase) && pr.worker == Some(i))
       || (pr.phase.AwaitingLease? && pr.ticket.Some? && pr.ticket.value in c.pool.settled
           && c.pool.settled[pr.ticket.value] == Granted(i))
  }

  /** Busy workers and the jobs that occupy them are in one-to-one correspondence. */
  lemma BusyWorkersAreOccupied(c: Core)
    requires Leases(c)
    ensures forall i :: 0 <= i < |c.pool.workers| && c.pool.workers[i].busy ==> exists j :: Occupies(c, j, i)
    ensures forall j, i: Place :: Occupies(c, j, i) ==> i < |c.pool.workers| && c.pool.workers[i].busy
    ensures forall j, k, i: Place :: Occupies(c, j, i) && Occupies(c, k, i) ==> j == k
    ensures forall j, i: Place, m: Place :: Occupies(c, j, i) && Occupies(c, j, m) ==> i == m
  {
    forall i | 0 <= i < |c.pool.workers| && c.pool.workers[i].busy ensures exists j :: Occupies(c, j, i) {
      var t := c.pool.workers[i].lessee.value;
      assert Entitled(c, i, t);
      assert ProcOk(c, c.callers[t]);
      assert Occupies(c, c.callers[t], i);
    }
    forall j, i: Place | Occupies(c, j, i)
      ensures i < |c.pool.workers| && c.pool.workers[i].busy
        && c.procs[j].ticket.Some? && HasLease(c.pool, i, c.procs[j].ticket.value)
          && c.callers[c.procs[j].ticket.value] == j
    {
      assert ProcOk(c, j);
    }
  }

  /** In every run: the correspondence holds, and once every job has ended no worker is busy. */
  lemma LeasesAreExclusive(c: Core, es: seq<Event>)
    requires Init(c) && Possible(c, es)
    ensures var d := After(c, es);
      && (forall i :: 0 <= i < |d.pool.workers| ==> (d.pool.workers[i].busy <==> exists j :: Occupies(d, j, i)))
      && (forall j, k, i: Place :: Occupies(d, j, i) && Occupies(d, k, i) ==> j == k)
      && (forall j, i: Place, m: Place :: Occupies(d, j, i) && Occupies(d, j, m) ==> i == m)
      && (forall j, i: Place :: Occupies(d, j, i) ==> i < |d.pool.workers|)
      && ((forall j :: j in d.procs ==> Over(d.procs[j].phase)) ==>
            forall i :: 0 <= i < |d.pool.workers| ==> !d.pool.workers[i].busy)
  {
    InitLeases(c);
    RunKeepsLeases(c, es);
    BusyWorkersAreOccupied(After(c, es));
  }

  // ------------------------------------------------------------------ only the holder gives a lease back

  /** From `c` to `d` a lessee leaves its worker only when its own job `j` gives the lease back. */
  ghost predicate LeavesOnlyBy(c: Core, d: Core, j: JobId) {
    && |d.pool.workers| == |c.pool.workers|
    && forall i :: 0 <= i < |c.pool.workers| && c.pool.workers[i].lessee.Some? ==>
         || d.pool.workers[i].lessee == c.pool.workers[i].lessee
         || (Occupies(c, j, i) && !c.procs[j].released && j in d.procs && d.procs[j].released)
  }

  lemma HandOffKeepsBusy(p: Pool)
    requires WellFormed(p)
    ensures |HandOff(p).workers| == |p.workers|
    ensures forall i :: 0 <= i < |p.workers| && p.workers[i].busy ==> HandOff(p).workers[i] == p.workers[i]
  {
    HandOffPairs(p);
  }

  lemma CloseLeavesOnlyOwn(c: Core, j: JobId, ph: Phase)
    requires Leases(c) && j in c.procs
    ensures LeavesOnlyBy(c, Close(c, j, ph), j)
  {
    assert ProcOk(c, j);
    var pr := c.procs[j];
    if pr.worker.Some? && !pr.released {
      FreeKeeps(c.pool, pr.worker.value);
      HandOffKeepsBusy(Free(c.pool, pr.worker.value));
    }
  }

  lemma CloseAfterLeavesOnlyOwn(c: Core, p: Pool, j: JobId, ph: Phase)
    requires Leases(c) && j in c.procs && Leases(c.(pool := p)) && |p.workers| == |c.pool.workers|
    requires forall i :: 0 <= i < |p.workers| ==> p.workers[i].lessee == c.pool.workers[i].lessee
    requires p.settled == c.pool.settled
    ensures LeavesOnlyBy(c, Close(c.(pool := p), j, ph), j)
  {
    CloseLeavesOnlyOwn(c.(pool := p), j, ph);
  }

  /** The job whose segment an event runs; for the others any job will do, since no lessee leaves. */
  function Actor(e: Event): JobId {
    match e
    case OpenSweep(_) | ReadLatest(_) | ReadPending(_) | Verdict(_) | RequestRefreshes(_, _) | LeaseTimer(_)
      | Mine(_, _) | Drop(_, _) | AbortAll => 0
    case SweepFails(k) => if k.OfJob? then k.job else 0
    case SweepEnds(k) => if k.OfJob? then k.job else 0
    case _ => e.job
  }

  lemma ShortLeavesOnlyOwn(c: Core, j: JobId, balance: nat, minimum: nat)
    requires Leases(c) && j in c.procs
    ensures LeavesOnlyBy(c, Short(c, j, balance, minimum), j)
  {
    RebalanceKeepsLeases(c, LeaseOf(c, j), balance, minimum);
    CloseAfterLeavesOnlyOwn(c, SetBalance(c.pool, LeaseOf(c, j), balance, minimum), j, Ended);
  }

  lemma GiveUpLeavesOnlyOwn(c: Core, j: JobId)
    requires Leases(c) && KnowsNonce(PhaseOf(c, j))
    ensures LeavesOnlyBy(c, GiveUp(c, j), j)
  {
    var n := NonceOf(PhaseOf(c, j));
    QuarantineKeepsLeases(c, LeaseOf(c, j), n);
    CloseAfterLeavesOnlyOwn(c, Quarantine(c.pool, LeaseOf(c, j), n), j, Ended);
  }

  lemma PreflightLeavesOnlyOwn(c: Core, e: Event)
    requires Leases(c) && Preflight(e) && Enabled(c, e)
    ensures LeavesOnlyBy(c, Resume(c, e), e.job)
  {
    hide Leases;
    var j, ph := e.job, PhaseOf(c, e.job);
    CloseLeavesOnlyOwn(c, j, Throwing(ShuttingDown));
    if e.BalanceRead? { ShortLeavesOnlyOwn(c, j, e.balance, c.floor); }
    else { ShortLeavesOnlyOwn(c, j, ph.balance, if e.Estimated? then e.gasCost else ph.balance + 1); }
  }

  lemma ResumeLeavesOnlyOwn(c: Core, e: Event)
    requires Leases(c) && Resumes(e) && Enabled(c, e)
    ensures LeavesOnlyBy(c, Resume(c, e), e.job)
  {
    hide Leases;
    var j := e.job;
    if Preflight(e) {
      PreflightLeavesOnlyOwn(c, e);
    } else if e.SendThrows? || e.ConfirmTimesOut? {
      GiveUpLeavesOnlyOwn(c, j);
    } else {
      CloseLeavesOnlyOwn(c, j, if e.Receipt? && e.success then AwaitingRespond else Ended);
    }
  }

  lemma ArrivalLeavesNobody(p: Pool)
    requires WellFormed(p)
    ensures |AcquireWithin(p).workers| == |p.workers|
    ensures forall i :: 0 <= i < |p.workers| && p.workers[i].lessee.Some? ==>
      AcquireWithin(p).workers[i].lessee == p.workers[i].lessee
  {
  }

  lemma SettlingLeavesOnlyOwn(c: Core, j: JobId)
    requires Leases(c) && Enabled(c, LeaseSettles(j))
    ensures LeavesOnlyBy(c, SettleLease(c, j), j)
  {
    hide Leases, Close;
    match c.pool.settled[c.procs[j].ticket.value]
    case Granted(_) =>
    case Refused(reason) => CloseLeavesOnlyOwn(c, j, Throwing(NoWorker(reason)));
    case Abandoned => CloseLeavesOnlyOwn(c, j, Throwing(Unanticipated));
  }

  lemma AskLeavesNobody(c: Core, e: Event)
    requires Leases(c) && Asks(e) && Enabled(c, e)
    ensures LeavesOnlyBy(c, Step(c, e), Actor(e))
  {
    PoolIsWellFormed(c);
    hide Leases, WellFormedBut;
    if e.AsksLease? {
      CloseLeavesOnlyOwn(c, e.job, Throwing(ShuttingDown));
      ArrivalLeavesNobody(c.pool);
    } else if e.LeaseSettles? {
      SettlingLeavesOnlyOwn(c, e.job);
    }
  }

  /**
   * No step frees a worker that another job leases: a lessee leaves only through the step of
   * its own job, and only with that job's lease marked as given back.
   */
  lemma OnlyTheHolderReleases(c: Core, e: Event)
    requires Leases(c) && Enabled(c, e)
    ensures LeavesOnlyBy(c, Step(c, e), Actor(e))
  {
    hide Leases;
    if Asks(e) { AskLeavesNobody(c, e); }
    else if Resumes(e) { ResumeLeavesOnlyOwn(c, e); }
    else if e.Throws? { CloseLeavesOnlyOwn(c, e.job, Throwing(Unanticipated)); }
    else if e.SweepFails? && e.sweep.OfJob? && PhaseOf(c, e.sweep.job).Sweeping? {
      var d := c.(sweeps := c.sweeps - {e.sweep});
      OnlyJobsAndPool(c, d);
      CloseLeavesOnlyOwn(d, e.sweep.job, Throwing(Unanticipated));
    }
  }

  // ------------------------------------------------------------------ each lease is given back exactly once

  /** The step gives job `j`'s lease back. */
  ghost predicate GivesBack(c: Core, e: Event, j: JobId)
    requires Enabled(c, e)
  {
    (j !in c.procs || !c.procs[j].released) && j in Step(c, e).procs && Step(c, e).procs[j].released
  }

  /** How many steps of the run give job `j`'s lease back. */
  ghost function TimesGivenBack(c: Core, es: seq<Event>, j: JobId): nat
    requires JobProtocol.Possible(c, es)
    decreases |es|
  {
    if es == [] then 0
    else (if GivesBack(c, es[0], j) then 1 else 0) + TimesGivenBack(Step(c, es[0]), es[1..], j)
  }

  lemma ResumeKeepsReleased(c: Core, e: Event, j: JobId)
    requires Resumes(e) && Enabled(c, e) && j in c.procs
    ensures j in Resume(c, e).procs
    ensures c.procs[j].released ==> Resume(c, e).procs[j].released
  {}

  lemma StaysReleased(c: Core, e: Event, j: JobId)
    requires Enabled(c, e) && j in c.procs
    ensures j in Step(c, e).procs
    ensures c.procs[j].released ==> Step(c, e).procs[j].released
  {
    if Resumes(e) { ResumeKeepsReleased(c, e, j); }
  }

  lemma {:induction false} GivenBackAtMostOnce(c: Core, es: seq<Event>, j: JobId)
    requires JobProtocol.Possible(c, es)
    ensures var d := JobProtocol.After(c, es);
      var had := j in c.procs && c.procs[j].released;
      TimesGivenBack(c, es, j) + (if had then 1 else 0) == if j in d.procs && d.procs[j].released then 1 else 0
    decreases |es|
  {
    if es != [] {
      if j in c.procs { StaysReleased(c, es[0], j); }
      GivenBackAtMostOnce(Step(c, es[0]), es[1..], j);
    }
  }

  /** In the pool, worker `i` is leased to job `j`: its lessee is that job's ticket. */
  ghost predicate LeasedTo(p: Pool, callers: seq<JobId>, i: Place, j: JobId) {
    && i < |p.workers| && p.workers[i].lessee.Some?
    && p.workers[i].lessee.value < |callers| && callers[p.workers[i].lessee.value] == j
  }

  /** The step ends a lease of job `j` in the pool: a worker leased to it no longer is. */
  ghost predicate EndsLease(c: Core, e: Event, j: JobId)
    requires Enabled(c, e)
  {
    exists i: Place :: LeasedTo(c.pool, c.callers, i, j) && !LeasedTo(Step(c, e).pool, Step(c, e).callers, i, j)
  }

  /** How many steps of the run end a lease of job `j`. */
  ghost function LeasesEnded(c: Core, es: seq<Event>, j: JobId): nat
    requires JobProtocol.Possible(c, es)
    decreases |es|
  {
    if es == [] then 0
    else (if EndsLease(c, es[0], j) then 1 else 0) + LeasesEnded(Step(c, es[0]), es[1..], j)
  }

  /** A job that gave its lease back leases nothing, and one that still holds its worker is its lessee. */
  lemma ReleasedLeasesNothing(c: Core, j: JobId)
    requires Leases(c) && j in c.procs
    ensures c.procs[j].released ==> forall i: Place :: !LeasedTo(c.pool, c.callers, i, j)
    ensures c.procs[j].worker.Some? && !c.procs[j].released ==> LeasedTo(c.pool, c.callers, c.procs[j].worker.value, j)
  {
    assert ProcOk(c, j);
    forall i: Place | LeasedTo(c.pool, c.callers, i, j) ensures !c.procs[j].released {
      assert Entitled(c, i, c.pool.workers[i].lessee.value);
    }
  }

  lemma CallersStay(c: Core, e: Event)
    requires Enabled(c, e)
    ensures |c.callers| <= |Step(c, e).callers|
    ensures forall t :: 0 <= t < |c.callers| ==> Step(c, e).callers[t] == c.callers[t]
  {
    if Resumes(e) { CallersStayOnResume(c, e); }
  }

  lemma CallersStayOnResume(c: Core, e: Event)
    requires Resumes(e) && Enabled(c, e)
    ensures Resume(c, e).callers == c.callers
  {
  }

  /** Seen at the pool, a lease of a job ends in exactly the steps in which its run gives it back. */
  lemma EndsExactlyWhenGivenBack(c: Core, e: Event, j: JobId)
    requires Leases(c) && Enabled(c, e)
    ensures EndsLease(c, e, j) <==> GivesBack(c, e, j)
  {
    hide Leases, Step, Enabled;
    StepKeepsLeases(c, e);
    CallersStay(c, e);
    OnlyTheHolderReleases(c, e);
    var d := Step(c, e);
    if EndsLease(c, e, j) {
      var i: Place :| LeasedTo(c.pool, c.callers, i, j) && !LeasedTo(d.pool, d.callers, i, j);
      LesseeOf(c, i, Actor(e), j);
    }
    if GivesBack(c, e, j) {
      GivenBackWasLeased(c, e, j);
      ReleasedLeasesNothing(d, j);
    }
  }

  /** The job that occupies a worker is the one it is leased to. */
  lemma LesseeOf(c: Core, i: Place, j: JobId, k: JobId)
    requires Leases(c) && LeasedTo(c.pool, c.callers, i, k)
    ensures Occupies(c, j, i) ==> j == k
    ensures k in c.procs && !c.procs[k].released
  {
    var t := c.pool.workers[i].lessee.value;
    assert Entitled(c, i, t) && ProcOk(c, k);
    if Occupies(c, j, i) { assert ProcOk(c, j); }
  }

  lemma GivenBackWasLeased(c: Core, e: Event, j: JobId)
    requires Leases(c) && Enabled(c, e) && GivesBack(c, e, j)
    ensures exists i: Place :: LeasedTo(c.pool, c.callers, i, j)
  {
    var d := Step(c, e);
    WorkerBeforeRelease(c, e, j);
    ReleasedLeasesNothing(c, j);
  }

  lemma WorkerBeforeRelease(c: Core, e: Event, j: JobId)
    requires Leases(c) && Enabled(c, e) && GivesBack(c, e, j)
    ensures j in c.procs && c.procs[j].worker.Some? && !c.procs[j].released
  {
    hide Leases, HandOff, AcquireWithin;
    if Resumes(e) { WorkerBeforeReleaseOnResume(c, e, j); }
  }

  lemma WorkerBeforeReleaseOnResume(c: Core, e: Event, j: JobId)
    requires Resumes(e) && Enabled(c, e) && j in Resume(c, e).procs && Resume(c, e).procs[j].released
    ensures j in c.procs && (c.procs[j].worker.Some? || c.procs[j].released)
  {
  }

  lemma {:induction false} EndedIsGivenBack(c: Core, es: seq<Event>, j: JobId)
    requires Leases(c) && JobProtocol.Possible(c, es)
    ensures LeasesEnded(c, es, j) == TimesGivenBack(c, es, j)
    decreases |es|
  {
    hide Leases, Step, Enabled, EndsLease, GivesBack;
    if es != [] {
      EndsExactlyWhenGivenBack(c, es[0], j);
      StepKeepsLeases(c, es[0]);
      EndedIsGivenBack(Step(c, es[0]), es[1..], j);
    }
  }

  /**
   * On every exit path: over the whole run of a job that is over, the pool ended exactly one lease of it, or it
   * never had one; and its own run released exactly as often.
   */
  lemma LeaseGivenBackExactlyOnce(c: Core, es: seq<Event>, j: JobId)
    requires Init(c) && JobProtocol.Possible(c, es)
    requires var d := JobProtocol.After(c, es); j in d.procs && Over(d.procs[j].phase)
    ensures LeasesEnded(c, es, j) == TimesGivenBack(c, es, j)
    ensures LeasesEnded(c, es, j) == if JobProtocol.After(c, es).procs[j].worker.Some? then 1 else 0
  {
    InitLeases(c);
    RunKeepsLeases(c, es);
    GivenBackAtMostOnce(c, es, j);
    EndedIsGivenBack(c, es, j);
    assert ProcOk(JobProtocol.After(c, es), j);
  }


  // ------------------------------------------------------------------ shutdown

  /** The job was told to stop and neither has a lease nor one on the way. */
  ghost predicate BarredFromLease(c: Core, j: JobId) {
    && j in c.procs && c.procs[j].aborted && c.procs[j].worker.None?
    && var pr := c.procs[j];
       || Early(pr.phase) || Over(pr.phase)
       || (pr.phase.AwaitingLease? && pr.ticket.Some? && pr.ticket.value in c.pool.settled
           && !c.pool.settled[pr.ticket.value].Granted?)
  }

  /** Past the last check before the Solana request. */
  predicate Requested(ph: Phase) {
    (KnowsNonce(ph) && !ph.Estimating?) || ph.AwaitingRespond?
  }

  ghost predicate BarredFromRequest(c: Core, j: JobId) {
    j in c.procs && c.procs[j].aborted && !Requested(c.procs[j].phase)
  }

  lemma CloseKeepsSettled(c: Core, j: JobId, ph: Phase)
    requires WellFormed(c.pool) && j in c.procs
    ensures forall t :: t in c.pool.settled ==>
      t in Close(c, j, ph).pool.settled && Close(c, j, ph).pool.settled[t] == c.pool.settled[t]
  {
    var pr := c.procs[j];
    if pr.worker.Some? && !pr.released {
      PoolFairness.SettledStays(c.pool, Give(pr.worker.value));
    }
  }

  /** A promise's outcome outlives every step. */
  lemma StepKeepsSettled(c: Core, e: Event, t: Ticket)
    requires Leases(c) && Enabled(c, e) && t in c.pool.settled
    ensures t in Step(c, e).pool.settled && Step(c, e).pool.settled[t] == c.pool.settled[t]
  {
    PoolIsWellFormed(c);
    hide Leases, WellFormedBut;
    if Resumes(e) {
      ResumeKeepsSettled(c, e, t);
    } else if Asks(e) {
      AskKeepsSettled(c, e, t);
    } else if e.Throws? {
      CloseKeepsSettled(c, e.job, Throwing(Unanticipated));
    } else if e.SweepFails? && e.sweep.OfJob? && PhaseOf(c, e.sweep.job).Sweeping? {
      CloseKeepsSettled(c.(sweeps := c.sweeps - {e.sweep}), e.sweep.job, Throwing(Unanticipated));
    }
  }

  lemma AskKeepsSettled(c: Core, e: Event, t: Ticket)
    requires Leases(c) && Asks(e) && Enabled(c, e) && t in c.pool.settled
    ensures t in Step(c, e).pool.settled && Step(c, e).pool.settled[t] == c.pool.settled[t]
  {
    PoolIsWellFormed(c);
    hide Leases, WellFormed, SettleLease, AskLease, Timeout, Abort;
    if e.AsksLease? { AskingKeepsSettled(c, e.job, t); }
    else if e.LeaseTimer? { PoolFairness.SettledStays(c.pool, Timer(e.t)); }
    else if e.AbortAll? { AbortKeepsSettled(c, t); }
    else { SettlingKeepsSettled(c, e.job, t); }
  }

  lemma AskingKeepsSettled(c: Core, j: JobId, t: Ticket)
    requires WellFormed(c.pool) && j in c.procs && t in c.pool.settled
    ensures t in AskLease(c, j).pool.settled && AskLease(c, j).pool.settled[t] == c.pool.settled[t]
  {
    hide WellFormed, Close, PoolModel.AcquireWithin;
    CloseKeepsSettled(c, j, Throwing(ShuttingDown));
    PoolFairness.SettledStays(c.pool, Arrive);
  }

  lemma AbortKeepsSettled(c: Core, t: Ticket)
    requires WellFormed(c.pool) && t in c.pool.settled
    ensures t in Abort(c).pool.settled && Abort(c).pool.settled[t] == c.pool.settled[t]
  {
    hide WellFormed;
    PoolFairness.SettledStays(c.pool, RejectAll);
  }

  lemma SettlingKeepsSettled(c: Core, j: JobId, t: Ticket)
    requires WellFormed(c.pool) && Enabled(c, LeaseSettles(j)) && t in c.pool.settled
    ensures t in SettleLease(c, j).pool.settled && SettleLease(c, j).pool.settled[t] == c.pool.settled[t]
  {
    hide WellFormed, Close;
    match c.pool.settled[c.procs[j].ticket.value]
    case Granted(_) =>
    case Refused(reason) => CloseKeepsSettled(c, j, Throwing(NoWorker(reason)));
    case Abandoned => CloseKeepsSettled(c, j, Throwing(Unanticipated));
  }

  lemma ShortKeepsSettled(c: Core, j: JobId, balance: nat, minimum: nat)
    requires Leases(c) && j in c.procs
    ensures forall t :: t in c.pool.settled ==>
      t in Short(c, j, balance, minimum).pool.settled
        && Short(c, j, balance, minimum).pool.settled[t] == c.pool.settled[t]
  {
    RebalanceKeepsLeases(c, LeaseOf(c, j), balance, minimum);
    CloseKeepsSettled(Rebalanced(c, LeaseOf(c, j), balance, minimum), j, Ended);
  }

  lemma ResumeKeepsSettled(c: Core, e: Event, t: Ticket)
    requires Leases(c) && Resumes(e) && Enabled(c, e) && t in c.pool.settled
    ensures t in Resume(c, e).pool.settled && Resume(c, e).pool.settled[t] == c.pool.settled[t]
  {
    PoolIsWellFormed(c);
    hide Leases, WellFormedBut;
    var j := e.job;
    if Preflight(e) {
      CloseKeepsSettled(c, j, Throwing(ShuttingDown));
      if e.BalanceRead? { ShortKeepsSettled(c, j, e.balance, c.floor); }
      else if e.InsufficientFunds? { ShortKeepsSettled(c, j, PhaseOf(c, j).balance, PhaseOf(c, j).balance + 1); }
      else { ShortKeepsSettled(c, j, PhaseOf(c, j).balance, e.gasCost); }
    } else if e.SendThrows? || e.ConfirmTimesOut? {
      QuarantineKeepsLeases(c, LeaseOf(c, j), PhaseOf(c, j).nonce);
      CloseKeepsSettled(c.(pool := Quarantine(c.pool, LeaseOf(c, j), PhaseOf(c, j).nonce)), j, Ended);
    } else {
      CloseKeepsSettled(c, j, if e.Receipt? && e.success then AwaitingRespond else Ended);
    }
  }

  /** An event moves no job but its own, apart from telling it to stop. */
  lemma OthersStay(c: Core, e: Event, j: JobId)
    requires Enabled(c, e) && j in c.procs && j != Actor(e)
    ensures j in Step(c, e).procs
    ensures Step(c, e).procs[j] == c.procs[j] || Step(c, e).procs[j] == c.procs[j].(aborted := true)
  {
    if Resumes(e) { OthersStayOnResume(c, e, j); }
  }

  lemma OthersStayOnResume(c: Core, e: Event, j: JobId)
    requires Resumes(e) && Enabled(c, e) && j in c.procs && j != e.job
    ensures j in Resume(c, e).procs && Resume(c, e).procs[j] == c.procs[j]
  {}

  lemma BarredFromLeaseStays(c: Core, e: Event, j: JobId)
    requires Leases(c) && Enabled(c, e) && BarredFromLease(c, j)
    ensures BarredFromLease(Step(c, e), j)
  {
    if c.procs[j].ticket.Some? && c.procs[j].ticket.value in c.pool.settled {
      StepKeepsSettled(c, e, c.procs[j].ticket.value);
    }
    if j != Actor(e) { OthersStay(c, e, j); } else { OwnStepStaysBarred(c, e); }
  }

  lemma OwnStepStaysBarred(c: Core, e: Event)
    requires Enabled(c, e) && BarredFromLease(c, Actor(e))
    ensures var j, d := Actor(e), Step(c, e);
      && j in d.procs && d.procs[j].aborted && d.procs[j].worker.None? && d.procs[j].ticket == c.procs[j].ticket
      && (Early(d.procs[j].phase) || Over(d.procs[j].phase) || d.procs[j].phase == c.procs[j].phase)
  {
    if Resumes(e) { OwnResumeStaysBarred(c, e); }
  }

  lemma OwnResumeStaysBarred(c: Core, e: Event)
    requires Resumes(e) && Enabled(c, e) && BarredFromLease(c, e.job)
    ensures var d := Resume(c, e);
      e.job in d.procs && d.procs[e.job] == c.procs[e.job].(phase := Ended)
  {}

  lemma BarredFromRequestStays(c: Core, e: Event, j: JobId)
    requires Enabled(c, e) && BarredFromRequest(c, j)
    ensures BarredFromRequest(Step(c, e), j)
  {
    hide Leases;
    if j != Actor(e) { OthersStay(c, e, j); }
    else if Resumes(e) { BarredFromRequestOnResume(c, e); }
  }

  lemma BarredFromRequestOnResume(c: Core, e: Event)
    requires Resumes(e) && Enabled(c, e) && BarredFromRequest(c, e.job)
    ensures BarredFromRequest(Resume(c, e), e.job)
  {}

  lemma {:induction false} BarredThroughout(c: Core, es: seq<Event>, j: JobId)
    requires Leases(c) && JobProtocol.Possible(c, es)
    ensures BarredFromLease(c, j) ==> BarredFromLease(JobProtocol.After(c, es), j)
    ensures BarredFromRequest(c, j) ==> BarredFromRequest(JobProtocol.After(c, es), j)
    decreases |es|
  {
    if es != [] {
      if BarredFromLease(c, j) { BarredFromLeaseStays(c, es[0], j); }
      if BarredFromRequest(c, j) { BarredFromRequestStays(c, es[0], j); }
      StepKeepsLeases(c, es[0]);
      BarredThroughout(Step(c, es[0]), es[1..], j);
    }
  }

  /**
   * Shutdown, whatever happens afterwards: the queue is empty at once; a live job without a
   * lease, granted or on the way, never gets one; and one that had not passed the last check
   * before its Solana request never sends it.
   */
  lemma ShutdownHolds(c: Core, es: seq<Event>, j: JobId)
    requires Leases(c) && JobProtocol.Possible(Abort(c), es)
    requires j in c.procs && !Over(c.procs[j].phase)
    ensures Abort(c).pool.waiters == []
    ensures (!Holding(c.procs[j].phase) && !c.procs[j].phase.AwaitingRespond?
             && forall i: Place :: !Occupies(c, j, i)) ==>
      BarredFromLease(JobProtocol.After(Abort(c), es), j)
    ensures !Requested(c.procs[j].phase) ==> BarredFromRequest(JobProtocol.After(Abort(c), es), j)
  {
    var d := Abort(c);
    assert ProcOk(c, j);
    AbortKeepsLeases(c);
    if !Holding(c.procs[j].phase) && !c.procs[j].phase.AwaitingRespond? && forall i: Place :: !Occupies(c, j, i) {
      if c.procs[j].phase.AwaitingLease? {
        var t := c.procs[j].ticket.value;
        if t in c.pool.settled && c.pool.settled[t].Granted? {
          assert Occupies(c, j, c.pool.settled[t].at);
        }
      }
      assert BarredFromLease(d, j);
    }
    BarredThroughout(d, es, j);
  }
}
