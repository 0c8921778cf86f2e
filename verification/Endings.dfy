/**
 * How jobs end. Every reason in a record, and the success of a job that has none, comes from one
 * step of the run: what that step's await yielded decides which.
 */
module Endings {
  import opened Options
  import Pool = PoolModel
  import PoolFairness
  import PoolRuns
  import Protocol = JobProtocol
  import Store = StoreModel
  import opened StoreSafety
  import opened Service
  import opened ServiceSafety
  import opened ServiceRuns
  import opened ServiceLifecycle
  import opened ShutdownRecords
  import LeaseSafety
  import LeaseTheorems

  datatype Ending = Success | Failure(reason: Store.Reason)

  /** The step that decides an ending of job `j`, told by the event alone: what its await yielded, or who spoke. */
  ghost predicate Decides(c: Protocol.Core, e: Protocol.Event, j: JobId, x: Ending)
    requires Protocol.Enabled(c, e)
  {
    match x
    case Success => e == Protocol.Responded(j, true)
    case Failure(reason) =>
      match reason
      case RespondMismatch => e == Protocol.Responded(j, false)
      case RespondTimeout => e == Protocol.RespondTimesOut(j)
      case TransactionReverted => e == Protocol.Receipt(j, false)
      case ConfirmationTimeout => e == Protocol.ConfirmTimesOut(j)
      case BroadcastFailed => e == Protocol.SendThrows(j)
      case DerivationMismatch => e == Protocol.Attached(j, false)
      case SignatureTimeout => e == Protocol.SignatureTimesOut(j)
      case PreflightUnderfunded =>
        || (e.BalanceRead? && e.job == j && e.balance < c.floor)
        || e == Protocol.InsufficientFunds(j)
        || (e.Estimated? && e.job == j && Protocol.PhaseOf(c, j).balance < e.gasCost)
      case Shutdown => StopsAtCheck(c, e, j)
      case AllWorkersBusy => e.LeaseTimer? && j in c.procs && c.procs[j].ticket == Some(e.t)
      case AllWorkersUnderfunded => e == Protocol.AsksLease(j) && !c.procs[j].aborted && PoolFairness.AllDry(c.pool)
      case InternalError =>
        || e == Protocol.Throws(j)
        || (e == Protocol.SweepFails(Protocol.OfJob(j)) && Protocol.PhaseOf(c, j).Sweeping?)
        || (e.AbortAll? && IsQueued(c, j))
  }

  /** An ending that the deciding step itself records; the others are recorded when the rejection is caught. */
  predicate RecordedAtOnce(x: Ending) {
    x.Success? || !(x.reason.Shutdown? || x.reason.AllWorkersBusy? || x.reason.AllWorkersUnderfunded?
                    || x.reason.InternalError?)
  }

  predicate Says(r: Store.Job, x: Ending) {
    match x
    case Success => r.state.Responded?
    case Failure(reason) => r.failure == Some(reason)
  }

  ghost predicate InputDecides(s: State, i: Input, j: JobId, x: Ending)
    requires Enabled(s, i)
  {
    i.Happens? && Decides(s.core, i.event, j, x)
  }

  /** Some step of the run decides the ending. */
  ghost predicate EverDecides(cfg: Config, s: State, ins: seq<Input>, j: JobId, x: Ending)
    requires Possible(cfg, s, ins)
    decreases |ins|
  {
    ins != [] && (InputDecides(s, ins[0], j, x) || EverDecides(cfg, Step(cfg, s, ins[0]), ins[1..], j, x))
  }

  // ------------------------------------------------------------------ jobs that are about to reject

  /** The class of error a job is rejected for, from the moment it is decided until it is caught. */
  function Doom(c: Protocol.Core, j: JobId): Option<Protocol.Cause> {
    if j !in c.procs then None
    else
      var pr := c.procs[j];
      if pr.phase.Throwing? then Some(pr.phase.cause)
      else if pr.phase.AwaitingLease? && pr.ticket.Some? && pr.ticket.value in c.pool.settled then
        match c.pool.settled[pr.ticket.value]
        case Granted(_) => None
        case Refused(reason) => Some(Protocol.NoWorker(reason))
        case Abandoned => Some(Protocol.Unanticipated)
      else None
  }

  /** The cause that an event dooms the job for, if it does. */
  ghost function DoomedBy(c: Protocol.Core, e: Protocol.Event, j: JobId): Option<Protocol.Cause>
    requires Protocol.Enabled(c, e)
  {
    if Decides(c, e, j, Failure(Store.InternalError)) then Some(Protocol.Unanticipated)
    else if Decides(c, e, j, Failure(Store.Shutdown)) then Some(Protocol.ShuttingDown)
    else if Decides(c, e, j, Failure(Store.AllWorkersBusy)) then Some(Protocol.NoWorker(Pool.AllBusy))
    else if Decides(c, e, j, Failure(Store.AllWorkersUnderfunded)) then Some(Protocol.NoWorker(Pool.AllUnderfunded))
    else None
  }

  /** A pool call settles a waiting ticket by granting it, unless it is the ticket's own timer or the shutdown. */
  lemma CallSettles(p: Pool.Pool, op: Pool.Op, t: Pool.Ticket)
    requires Pool.WellFormed(p) && Pool.Allowed(p, op) && t in p.waiters
    ensures t < Pool.Apply(p, op).next
    ensures t in Pool.Apply(p, op).settled ==> (
      if op == Pool.Timer(t) then Pool.Apply(p, op).settled[t] == Pool.Refused(Pool.AllBusy)
      else if op.RejectAll? then Pool.Apply(p, op).settled[t] == Pool.Abandoned
      else Pool.Apply(p, op).settled[t].Granted?)
    ensures op == Pool.Timer(t) || op.RejectAll? ==> t in Pool.Apply(p, op).settled
  {
    PoolFairness.NextGrows(p, op);
    if op.Give? {
      Pool.FreeKeeps(p, op.at);
      HandOffGrants(Pool.Free(p, op.at), t);
    }
  }

  lemma {:induction false} HandOffGrants(p: Pool.Pool, t: Pool.Ticket)
    requires Pool.WellFormed(p) && t in p.waiters
    ensures t in Pool.HandOff(p).settled ==> Pool.HandOff(p).settled[t].Granted?
    decreases |p.waiters|
  {
    if Pool.Available(p).Some? {
      var popped := p.(waiters := p.waiters[1..]);
      var next := Pool.Lease(popped, Pool.Available(p).value, p.waiters[0]);
      Pool.PopKeeps(p);
      Pool.LeaseKeeps(popped, Pool.Available(p).value, p.waiters[0]);
      if t == p.waiters[0] {
        PoolFairness.HandOffOnlyAdds(next);
      } else {
        HandOffGrants(next, t);
      }
    }
  }

  /** A ticket that waits, or was granted; calls that are neither its timer nor the shutdown keep it so. */
  lemma {:induction false} CallsGrant(p: Pool.Pool, ops: seq<Pool.Op>, q: Pool.Pool, t: Pool.Ticket)
    requires Pool.WellFormed(p) && PoolRuns.MakesOf(p, ops, q)
    requires t in p.waiters || (t in p.settled && p.settled[t].Granted?)
    requires forall op :: op in ops ==> op != Pool.Timer(t) && !op.RejectAll?
    ensures t in q.settled ==> q.settled[t].Granted?
    decreases |ops|
  {
    hide Pool.WellFormedBut, Pool.Apply;
    WaitsOrSettled(p, t);
    if ops != [] {
      var next := Pool.Apply(p, ops[0]);
      assert ops[0] in ops && PoolFairness.Possible(next, ops[1..]) && PoolFairness.After(next, ops[1..]) == q;
      Pool.ApplyKeeps(p, ops[0]);
      if t in p.waiters { CallSettles(p, ops[0], t); } else { PoolFairness.SettledStays(p, ops[0]); }
      PoolFairness.NextGrows(p, ops[0]);
      WaitsOrSettled(p, t);
      OneOfTheTwo(next, t);
      assert forall op :: op in ops[1..] ==> op in ops;
      CallsGrant(next, ops[1..], q, t);
    }
  }

  lemma WaitsOrSettled(p: Pool.Pool, t: Pool.Ticket)
    requires Pool.WellFormed(p)
    ensures t in p.waiters || t in p.settled ==> t < p.next
    ensures t in p.waiters ==> t !in p.settled
  {
  }

  lemma OneOfTheTwo(p: Pool.Pool, t: Pool.Ticket)
    requires Pool.WellFormed(p) && t < p.next
    ensures t in p.waiters || t in p.settled
  {
  }

  lemma OtherCalls(c: Protocol.Core, e: Protocol.Event)
    requires Protocol.Enabled(c, e) && !e.LeaseTimer? && !e.AbortAll?
    ensures forall op :: op in PoolRuns.Calls(c, e) ==> !op.Timer? && !op.RejectAll?
  {
  }

  /** What a step makes of a ticket that waits. */
  lemma StepSettles(c: Protocol.Core, e: Protocol.Event, t: Pool.Ticket)
    requires LeaseSafety.Leases(c) && Protocol.Enabled(c, e) && t in c.pool.waiters
    ensures var p := Protocol.Step(c, e).pool;
      if e == Protocol.LeaseTimer(t) then t in p.settled && p.settled[t] == Pool.Refused(Pool.AllBusy)
      else if e.AbortAll? then t in p.settled && p.settled[t] == Pool.Abandoned
      else t in p.settled ==> p.settled[t].Granted?
  {
    LeaseSafety.PoolIsWellFormed(c);
    PoolRuns.StepMakes(c, e);
    hide LeaseSafety.Leases, Pool.WellFormedBut;
    if e.LeaseTimer? {
      CallSettles(c.pool, Pool.Timer(e.t), t);
    } else if e.AbortAll? {
      CallSettles(c.pool, Pool.RejectAll, t);
    } else {
      OtherCalls(c, e);
      hide Protocol.Step, Protocol.Enabled, PoolRuns.MakesOf, PoolRuns.Calls;
      CallsGrant(c.pool, PoolRuns.Calls(c, e), Protocol.Step(c, e).pool, t);
    }
  }

  // ------------------------------------------------------------------ who dooms a job

  /** The next of the two: newly decided, or decided before. */
  ghost function NextDoom(c: Protocol.Core, e: Protocol.Event, j: JobId): Option<Protocol.Cause>
    requires Protocol.Enabled(c, e)
  {
    if DoomedBy(c, e, j).Some? then DoomedBy(c, e, j) else Doom(c, j)
  }

  lemma TicketOf(c: Protocol.Core, j: JobId)
    requires LeaseSafety.Leases(c) && j in c.procs && c.procs[j].phase.AwaitingLease?
    ensures c.procs[j].ticket.Some?
    ensures c.procs[j].ticket.value in c.pool.waiters || c.procs[j].ticket.value in c.pool.settled
    ensures c.procs[j].ticket.value in c.pool.waiters ==> c.procs[j].ticket.value !in c.pool.settled
  {
    assert LeaseSafety.ProcOk(c, j);
  }

  /** A ticket that waits belongs to a job that waits. */
  lemma WaiterWaits(c: Protocol.Core, j: JobId, t: Pool.Ticket)
    requires LeaseSafety.Leases(c) && j in c.procs && c.procs[j].ticket == Some(t) && t in c.pool.waiters
    ensures c.procs[j].phase.AwaitingLease?
  {
    assert LeaseSafety.ProcOk(c, j);
  }

  lemma OthersDecide(c: Protocol.Core, e: Protocol.Event, j: JobId)
    requires Protocol.Enabled(c, e) && OwnerOf(e) != Some(j)
    ensures forall x :: Decides(c, e, j, x) ==>
      || (e.LeaseTimer? && x == Failure(Store.AllWorkersBusy))
      || (e.AbortAll? && x == Failure(Store.InternalError))
  {
    hide Decides, Protocol.Enabled;
    forall x | Decides(c, e, j, x)
      ensures (e.LeaseTimer? && x == Failure(Store.AllWorkersBusy))
        || (e.AbortAll? && x == Failure(Store.InternalError))
    {
      OtherDecides(c, e, j, x);
    }
  }

  lemma OtherDecides(c: Protocol.Core, e: Protocol.Event, j: JobId, x: Ending)
    requires Protocol.Enabled(c, e) && OwnerOf(e) != Some(j) && Decides(c, e, j, x)
    ensures (e.LeaseTimer? && x == Failure(Store.AllWorkersBusy))
      || (e.AbortAll? && x == Failure(Store.InternalError))
  {
    hide Protocol.Enabled, Protocol.PhaseOf, IsQueued, PoolFairness.AllDry;
  }

  /** A step of another job dooms `j` only through its ticket. */
  lemma OthersDoom(c: Protocol.Core, e: Protocol.Event, j: JobId)
    requires LeaseSafety.Leases(c) && Protocol.Enabled(c, e) && !e.Start? && OwnerOf(e) != Some(j) && j in c.procs
    ensures Doom(Protocol.Step(c, e), j) == NextDoom(c, e, j)
  {
    hide LeaseSafety.Leases, Protocol.Step, Protocol.Enabled, DoomedBy;
    OthersPhase(c, e, j);
    TicketStays(c, e, j);
    if c.procs[j].phase.AwaitingLease? {
      TicketOf(c, j);
      var t := c.procs[j].ticket.value;
      if t in c.pool.settled {
        LeaseTheorems.StepKeepsSettled(c, e, t);
        SettledAreNotDoomed(c, e, j);
      } else {
        StepSettles(c, e, t);
        WaitersAreDoomed(c, e, j);
      }
    } else {
      OnlyWaitersAreDoomed(c, e, j);
    }
  }

  lemma SettledAreNotDoomed(c: Protocol.Core, e: Protocol.Event, j: JobId)
    requires LeaseSafety.Leases(c) && Protocol.Enabled(c, e) && OwnerOf(e) != Some(j) && j in c.procs
    requires c.procs[j].ticket.Some? && c.procs[j].ticket.value !in c.pool.waiters
    ensures DoomedBy(c, e, j).None?
  {
    hide LeaseSafety.Leases, Decides, Protocol.Enabled;
    OthersDecide(c, e, j);
    if e.LeaseTimer? { TimerDecides(c, e.t, j); } else if e.AbortAll? { AbortDecides(c, j); }
  }

  lemma TimerDecides(c: Protocol.Core, t: Pool.Ticket, j: JobId)
    requires Protocol.Enabled(c, Protocol.LeaseTimer(t))
    ensures Decides(c, Protocol.LeaseTimer(t), j, Failure(Store.AllWorkersBusy))
      <==> j in c.procs && c.procs[j].ticket == Some(t)
    ensures t in c.pool.waiters
  {
  }

  lemma AbortDecides(c: Protocol.Core, j: JobId)
    ensures Protocol.Enabled(c, Protocol.AbortAll)
    ensures Decides(c, Protocol.AbortAll, j, Failure(Store.InternalError)) <==> IsQueued(c, j)
  {
  }

  lemma WaitersAreDoomed(c: Protocol.Core, e: Protocol.Event, j: JobId)
    requires Protocol.Enabled(c, e) && OwnerOf(e) != Some(j) && IsQueued(c, j)
    ensures DoomedBy(c, e, j) ==
      if e == Protocol.LeaseTimer(c.procs[j].ticket.value) then Some(Protocol.NoWorker(Pool.AllBusy))
      else if e.AbortAll? then Some(Protocol.Unanticipated) else None
  {
    hide Decides, Protocol.Enabled;
    OthersDecide(c, e, j);
    if e.LeaseTimer? { TimerDecides(c, e.t, j); } else if e.AbortAll? { AbortDecides(c, j); }
  }

  lemma OnlyWaitersAreDoomed(c: Protocol.Core, e: Protocol.Event, j: JobId)
    requires LeaseSafety.Leases(c) && Protocol.Enabled(c, e) && OwnerOf(e) != Some(j) && j in c.procs
    requires !c.procs[j].phase.AwaitingLease?
    ensures DoomedBy(c, e, j).None?
  {
    hide LeaseSafety.Leases, Decides, Protocol.Enabled;
    OthersDecide(c, e, j);
    if e.LeaseTimer? {
      TimerDecides(c, e.t, j);
      if c.procs[j].ticket == Some(e.t) { WaiterWaits(c, j, e.t); }
    } else if e.AbortAll? {
      AbortDecides(c, j);
    }
  }

  // ------------------------------------------------------------------ a job's own steps

  /** What the settled promise tells the job when it resumes. */
  lemma SettlementTells(c: Protocol.Core, j: JobId)
    requires Protocol.Enabled(c, Protocol.LeaseSettles(j))
    ensures Doom(Protocol.Step(c, Protocol.LeaseSettles(j)), j) == Doom(c, j)
    ensures DoomedBy(c, Protocol.LeaseSettles(j), j).None?
  {
    hide Protocol.Close;
    match c.pool.settled[c.procs[j].ticket.value]
    case Granted(_) =>
    case Refused(reason) => CloseMoves(c, j, Protocol.Throwing(Protocol.NoWorker(reason)));
    case Abandoned => CloseMoves(c, j, Protocol.Throwing(Protocol.Unanticipated));
  }

  /** A new ticket is refused at once exactly when every worker is underfunded. */
  lemma ArrivalSettles(p: Pool.Pool)
    requires Pool.WellFormed(p)
    ensures var q := Pool.AcquireWithin(p);
      if PoolFairness.AllDry(p) then p.next in q.settled && q.settled[p.next] == Pool.Refused(Pool.AllUnderfunded)
      else p.next in q.settled ==> q.settled[p.next].Granted?
  {
    PoolFairness.NoneAvailable(p);
    if Pool.Available(p).None? { PoolFairness.RefusalSaysWhetherWaitingHelps(p); }
  }

  lemma AskDoomsBy(c: Protocol.Core, j: JobId)
    requires Protocol.Enabled(c, Protocol.AsksLease(j))
    ensures j in c.procs && Doom(c, j).None?
    ensures DoomedBy(c, Protocol.AsksLease(j), j) ==
      if c.procs[j].aborted then Some(Protocol.ShuttingDown)
      else if PoolFairness.AllDry(c.pool) then Some(Protocol.NoWorker(Pool.AllUnderfunded)) else None
  {
    hide PoolFairness.AllDry;
  }

  lemma AskingDooms(c: Protocol.Core, j: JobId)
    requires LeaseSafety.Leases(c) && Protocol.Enabled(c, Protocol.AsksLease(j))
    ensures Doom(Protocol.Step(c, Protocol.AsksLease(j)), j) == NextDoom(c, Protocol.AsksLease(j), j)
  {
    LeaseSafety.PoolIsWellFormed(c);
    AskDoomsBy(c, j);
    hide LeaseSafety.Leases, Pool.WellFormed, PoolFairness.AllDry, DoomedBy, Doom;
    if c.procs[j].aborted { StoppingDooms(c, j); } else { QueueingDooms(c, j); }
  }

  lemma StoppingDooms(c: Protocol.Core, j: JobId)
    requires Protocol.Enabled(c, Protocol.AsksLease(j)) && c.procs[j].aborted
    ensures Doom(Protocol.Step(c, Protocol.AsksLease(j)), j) == Some(Protocol.ShuttingDown)
  {
    hide Protocol.Close;
    CloseMoves(c, j, Protocol.Throwing(Protocol.ShuttingDown));
  }

  lemma QueueingDooms(c: Protocol.Core, j: JobId)
    requires Pool.WellFormed(c.pool) && Protocol.Enabled(c, Protocol.AsksLease(j)) && !c.procs[j].aborted
    ensures Doom(Protocol.Step(c, Protocol.AsksLease(j)), j)
      == if PoolFairness.AllDry(c.pool) then Some(Protocol.NoWorker(Pool.AllUnderfunded)) else None
  {
    hide Pool.AcquireWithin, Pool.WellFormed, PoolFairness.AllDry;
    ArrivalSettles(c.pool);
  }

  lemma ThrowingDooms(c: Protocol.Core, j: JobId)
    requires Protocol.Enabled(c, Protocol.Throws(j))
    ensures Doom(Protocol.Step(c, Protocol.Throws(j)), j) == NextDoom(c, Protocol.Throws(j), j)
  {
    hide Protocol.Close;
    CloseMoves(c, j, Protocol.Throwing(Protocol.Unanticipated));
  }

  lemma SweepDoomsBy(c: Protocol.Core, e: Protocol.Event, j: JobId)
    requires Protocol.Enabled(c, e) && j in c.procs
    requires e == Protocol.SweepFails(Protocol.OfJob(j)) || e == Protocol.SweepEnds(Protocol.OfJob(j))
    ensures DoomedBy(c, e, j) ==
      if e.SweepFails? && Protocol.PhaseOf(c, j).Sweeping? then Some(Protocol.Unanticipated) else None
    ensures Protocol.PhaseOf(c, j).Sweeping? ==> Doom(c, j).None?
  {
  }

  lemma SweepDooms(c: Protocol.Core, e: Protocol.Event, j: JobId)
    requires Protocol.Enabled(c, e) && j in c.procs
    requires e == Protocol.SweepFails(Protocol.OfJob(j)) || e == Protocol.SweepEnds(Protocol.OfJob(j))
    ensures Doom(Protocol.Step(c, e), j) == NextDoom(c, e, j)
  {
    SweepDoomsBy(c, e, j);
    hide Protocol.Close, DoomedBy;
    CloseMoves(c.(sweeps := c.sweeps - {e.sweep}), j, Protocol.Throwing(Protocol.Unanticipated));
  }

  lemma PreparingDooms(c: Protocol.Core, e: Protocol.Event, j: JobId)
    requires Protocol.Enabled(c, e) && (e == Protocol.Derived(j) || (e.Refreshed? && e.job == j))
    ensures Doom(Protocol.Step(c, e), j) == NextDoom(c, e, j)
  {
  }

  lemma ResumingDooms(c: Protocol.Core, e: Protocol.Event)
    requires Protocol.Resumes(e) && Protocol.Enabled(c, e) && !e.Caught?
    ensures Doom(Protocol.Step(c, e), e.job) == NextDoom(c, e, e.job)
  {
    ResumeMoves(c, e);
    ResumeStops(c, e);
    ResumeDoomsBy(c, e);
    hide Protocol.Resume, DoomedBy, StopsAtCheck;
  }

  lemma ResumeDoomsBy(c: Protocol.Core, e: Protocol.Event)
    requires Protocol.Resumes(e) && Protocol.Enabled(c, e) && !e.Caught?
    ensures DoomedBy(c, e, e.job) == if StopsAtCheck(c, e, e.job) then Some(Protocol.ShuttingDown) else None
    ensures Doom(c, e.job).None? && !NextPhase(c, e).AwaitingLease?
    ensures NextPhase(c, e).Throwing? ==> NextPhase(c, e).cause == Protocol.ShuttingDown
  {
  }

  /** The step of a job that has not been caught yet. */
  lemma OwnDoom(c: Protocol.Core, e: Protocol.Event, j: JobId)
    requires LeaseSafety.Leases(c) && Protocol.Enabled(c, e) && !e.Start? && OwnerOf(e) == Some(j) && j in c.procs
    requires !e.Caught?
    ensures Doom(Protocol.Step(c, e), j) == NextDoom(c, e, j)
  {
    hide Protocol.Step, Protocol.Enabled, LeaseSafety.Leases, Doom, NextDoom;
    if Protocol.Resumes(e) { ResumingDooms(c, e); }
    else if e.LeaseSettles? { SettlementDooms(c, j); }
    else if e.AsksLease? { AskingDooms(c, j); }
    else if e.Throws? { ThrowingDooms(c, j); }
    else if e.SweepFails? || e.SweepEnds? { SweepDooms(c, e, j); }
    else { PreparingDooms(c, e, j); }
  }

  lemma SettlementDooms(c: Protocol.Core, j: JobId)
    requires Protocol.Enabled(c, Protocol.LeaseSettles(j))
    ensures Doom(Protocol.Step(c, Protocol.LeaseSettles(j)), j) == NextDoom(c, Protocol.LeaseSettles(j), j)
  {
    hide Doom, DoomedBy, Protocol.Step, Protocol.Enabled;
    SettlementTells(c, j);
  }

  // ------------------------------------------------------------------ the record of a step

  /** The reason of a class of errors. */
  predicate CauseIs(cause: Protocol.Cause, reason: Store.Reason) {
    match cause
    case ShuttingDown => reason.Shutdown?
    case NoWorker(AllBusy) => reason.AllWorkersBusy?
    case NoWorker(AllUnderfunded) => reason.AllWorkersUnderfunded?
    case Unanticipated => reason.InternalError?
  }

  predicate IsDoomed(doom: Option<Protocol.Cause>, x: Ending) {
    x.Failure? && doom.Some? && CauseIs(doom.value, x.reason)
  }

  lemma DecidesIsDoom(c: Protocol.Core, e: Protocol.Event, j: JobId, x: Ending)
    requires Protocol.Enabled(c, e) && !RecordedAtOnce(x)
    ensures Decides(c, e, j, x) <==> IsDoomed(DoomedBy(c, e, j), x)
  {
    hide Protocol.Enabled, Protocol.PhaseOf, IsQueued, PoolFairness.AllDry;
  }

  lemma AtOnceIsNoDoom(doom: Option<Protocol.Cause>, x: Ending)
    requires RecordedAtOnce(x)
    ensures !IsDoomed(doom, x)
  {
  }

  /** The updates end the job as `x`. */
  predicate EndsAs(moves: seq<Move>, x: Ending) {
    moves != []
    && match x
       case Success => moves[|moves| - 1].Finish?
       case Failure(reason) => moves[|moves| - 1] == Fail(reason)
  }

  predicate Undecided(r: Store.Job) { r.failure.None? && !r.state.Responded? }

  lemma MovesEndAs(c: Protocol.Core, e: Protocol.Event, j: JobId, x: Ending)
    requires Protocol.Enabled(c, e) && !e.Start? && OwnerOf(e) == Some(j) && !e.Caught? && j in c.procs
    ensures EndsAs(Moves(c, e), x) <==> RecordedAtOnce(x) && Decides(c, e, j, x)
  {
    if Protocol.Resumes(e) { ResumeMovesEndAs(c, e, x); }
  }

  lemma ResumeMovesEndAs(c: Protocol.Core, e: Protocol.Event, x: Ending)
    requires Protocol.Resumes(e) && Protocol.Enabled(c, e) && !e.Caught?
    ensures EndsAs(Moves(c, e), x) <==> RecordedAtOnce(x) && Decides(c, e, e.job, x)
  {
  }

  lemma UpdatesSay(r: Store.Job, moves: seq<Move>, now: int, x: Ending)
    requires Undecided(r) && |moves| <= 2 && (|moves| == 2 ==> moves[0].Request? || moves[0].Respond?)
    ensures Says(PatchedAll(r, moves, now), x) <==> EndsAs(moves, x)
  {
    if |moves| == 1 {
      OnePatch(r, moves[0], now);
      assert moves == [moves[0]];
    } else if |moves| == 2 {
      TwoPatches(r, moves[0], moves[1], now);
      assert moves == [moves[0], moves[1]];
    }
  }

  /** The record says it, or the job is doomed to have it recorded. */
  predicate WillSay(c: Protocol.Core, j: JobId, r: Store.Job, x: Ending) { Says(r, x) || IsDoomed(Doom(c, j), x) }

  lemma LiveSays(c: Protocol.Core, e: Protocol.Event, j: JobId, r: Store.Job, now: int, x: Ending)
    requires LeaseSafety.Leases(c) && Protocol.Enabled(c, e) && !e.Start? && OwnerOf(e) == Some(j) && j in c.procs
    requires !e.Caught? && Undecided(r)
    ensures WillSay(Protocol.Step(c, e), j, PatchedAll(r, Moves(c, e), now), x)
      <==> WillSay(c, j, r, x) || Decides(c, e, j, x)
  {
    hide LeaseSafety.Leases, Protocol.Step, Protocol.Enabled, Moves, PatchedAll, Decides, DoomedBy, Doom, Says, EndsAs,
      CauseIs;
    MovesAre(c, e);
    MovesEndAs(c, e, j, x);
    UpdatesSay(r, Moves(c, e), now, x);
    SaysNothing(r, x);
    OwnDoom(c, e, j);
    if RecordedAtOnce(x) {
      AtOnceIsNoDoom(Doom(c, j), x);
      AtOnceIsNoDoom(Doom(Protocol.Step(c, e), j), x);
    } else {
      DecidesIsDoom(c, e, j, x);
      DoomOrLater(c, e, j, x);
    }
  }

  lemma SaysNothing(r: Store.Job, x: Ending)
    requires Undecided(r)
    ensures !Says(r, x)
  {
  }

  /** A job is doomed once: nothing dooms it that is doomed already. */
  lemma DoomOrLater(c: Protocol.Core, e: Protocol.Event, j: JobId, x: Ending)
    requires LeaseSafety.Leases(c) && Protocol.Enabled(c, e) && !e.Start? && OwnerOf(e) == Some(j) && j in c.procs
    requires !e.Caught?
    ensures IsDoomed(NextDoom(c, e, j), x) <==> IsDoomed(Doom(c, j), x) || IsDoomed(DoomedBy(c, e, j), x)
  {
    hide LeaseSafety.Leases, CauseIs, DoomedBy, Doom;
    DoomedOnce(c, e, j);
  }

  lemma DoomedOnce(c: Protocol.Core, e: Protocol.Event, j: JobId)
    requires Protocol.Enabled(c, e) && !e.Start? && OwnerOf(e) == Some(j) && j in c.procs && !e.Caught?
    ensures DoomedBy(c, e, j).Some? ==> Doom(c, j).None?
  {
    hide DoomedBy, Doom;
    if Protocol.Resumes(e) { ResumeDoomsBy(c, e); }
    else if e.AsksLease? { AskDoomsBy(c, j); }
    else if e.SweepFails? || e.SweepEnds? { SweepDoomsBy(c, e, j); }
    else if e.LeaseSettles? { SettlementTells(c, j); }
    else { EarlyIsNotDoomed(c, e, j); }
  }

  lemma EarlyIsNotDoomed(c: Protocol.Core, e: Protocol.Event, j: JobId)
    requires Protocol.Enabled(c, e)
    requires e == Protocol.Derived(j) || e == Protocol.Throws(j) || (e.Refreshed? && e.job == j)
    ensures Doom(c, j).None?
  {
  }

  lemma OthersDoomedOnce(c: Protocol.Core, e: Protocol.Event, j: JobId)
    requires LeaseSafety.Leases(c) && Protocol.Enabled(c, e) && OwnerOf(e) != Some(j) && j in c.procs
    ensures DoomedBy(c, e, j).Some? ==> Doom(c, j).None?
  {
    hide LeaseSafety.Leases, Protocol.Enabled, DoomedBy;
    if c.procs[j].phase.AwaitingLease? {
      TicketOf(c, j);
      if c.procs[j].ticket.value in c.pool.settled { SettledAreNotDoomed(c, e, j); }
    } else {
      OnlyWaitersAreDoomed(c, e, j);
    }
  }

  lemma OthersSay(c: Protocol.Core, e: Protocol.Event, j: JobId, r: Store.Job, x: Ending)
    requires LeaseSafety.Leases(c) && Protocol.Enabled(c, e) && !e.Start? && OwnerOf(e) != Some(j) && j in c.procs
    ensures WillSay(Protocol.Step(c, e), j, r, x) <==> WillSay(c, j, r, x) || Decides(c, e, j, x)
  {
    hide LeaseSafety.Leases, Protocol.Step, Protocol.Enabled, Decides, DoomedBy, Doom, Says, CauseIs;
    OthersDoom(c, e, j);
    OthersDoomedOnce(c, e, j);
    if RecordedAtOnce(x) {
      AtOnceIsNoDoom(Doom(c, j), x);
      AtOnceIsNoDoom(Doom(Protocol.Step(c, e), j), x);
      OthersDecide(c, e, j);
    } else {
      DecidesIsDoom(c, e, j, x);
    }
  }

  /** The rejection is caught: what was going to be recorded is. */
  lemma CatchSays(c: Protocol.Core, j: JobId, r: Store.Job, now: int, x: Ending)
    requires Protocol.Enabled(c, Protocol.Caught(j)) && Undecided(r)
    ensures WillSay(Protocol.Step(c, Protocol.Caught(j)), j, PatchedAll(r, Moves(c, Protocol.Caught(j)), now), x)
      <==> WillSay(c, j, r, x)
    ensures !Decides(c, Protocol.Caught(j), j, x)
  {
    var cause := c.procs[j].phase.cause;
    OnePatch(r, Fail(ReasonOf(cause)), now);
    assert Moves(c, Protocol.Caught(j)) == [Fail(ReasonOf(cause))];
    ReasonIs(cause, x);
  }

  lemma ReasonIs(cause: Protocol.Cause, x: Ending)
    ensures IsDoomed(Some(cause), x) <==> x == Failure(ReasonOf(cause))
  {
  }

  lemma EndedStays(c: Protocol.Core, e: Protocol.Event, j: JobId, r: Store.Job, now: int, x: Ending)
    requires Protocol.Enabled(c, e) && !e.Start? && OwnerOf(e) == Some(j) && j in c.procs && c.procs[j].phase.Ended?
    ensures WillSay(Protocol.Step(c, e), j, PatchedAll(r, Moves(c, e), now), x) <==> WillSay(c, j, r, x)
    ensures !Decides(c, e, j, x)
  {
    StrayDoes(c, e, j);
  }

  /** The record of a job that has not ended says nothing yet. */
  lemma NothingSaidYet(ph: Protocol.Phase, r: Store.Job, clock: int)
    requires Fits(ph, FaceOf(r)) && JobOk(r, clock) && !ph.Ended?
    ensures Undecided(r)
  {
  }

  // ------------------------------------------------------------------ runs

  ghost predicate Said(s: State, j: JobId, x: Ending) {
    j in s.store.jobs && j in s.core.procs && WillSay(s.core, j, s.store.jobs[j], x)
  }

  lemma EventSays(cfg: Config, s: State, e: Protocol.Event, now: int, j: JobId, x: Ending)
    requires Inv(cfg, s) && Enabled(s, Happens(e, now)) && j in Step(cfg, s, Happens(e, now)).store.jobs
    ensures Said(Step(cfg, s, Happens(e, now)), j, x) <==> Said(s, j, x) || Decides(s.core, e, j, x)
  {
    hide Inv, Protocol.Step, Protocol.Enabled, Decides, Moves, Ops, Final, Follows, PatchedAll, WillSay, JobOk, Fits,
      LeaseSafety.Leases;
    EventKeepsInv(cfg, s, e, now);
    StoreFits(cfg, Step(cfg, s, Happens(e, now)), j);
    RecordAfter(cfg.limits, s.clock, s.store, e, s.core, now, j);
    StoreFits(cfg, s, j);
    HasLeases(cfg, s);
    var r, ph := s.store.jobs[j], s.core.procs[j].phase;
    if OwnerOf(e) != Some(j) {
      OthersSay(s.core, e, j, r, x);
    } else if ph.Ended? {
      EndedStays(s.core, e, j, r, now, x);
    } else {
      NothingSaidYet(ph, r, s.clock);
      if e.Caught? { CatchSays(s.core, j, r, now, x); } else { LiveSays(s.core, e, j, r, now, x); }
    }
  }

  lemma SubmitSays(cfg: Config, s: State, k: JobId, mode: Store.Mode, now: int, j: JobId, x: Ending)
    requires Inv(cfg, s) && Enabled(s, Submit(k, mode, now)) && j in Submitted(cfg, s, k, mode, now).store.jobs
    ensures Said(Submitted(cfg, s, k, mode, now), j, x) <==> Said(s, j, x)
  {
    SoundIsWellFormed(cfg, s);
    AllKnown(cfg, s);
    hide Inv, Store.WellFormed, Store.Create, Answer, OnlyTouches, NewJob, Says, IsDoomed;
    if Answer(cfg, s, k, now).Accepted? {
      CreateTouches(s.store, cfg.limits.retained, k, mode, now);
      TouchedSays(s.store, Store.Create(s.store, cfg.limits.retained, k, mode, now), k, mode, now, j, x);
      NewcomerIsSafe(s.core, k, j);
    }
  }

  lemma TouchedSays(st: Store.Store, next: Store.Store, k: JobId, mode: Store.Mode, now: int, j: JobId, x: Ending)
    requires OnlyTouches(st, next, k) && k in next.jobs && next.jobs[k] == NewJob(mode, now) && j in next.jobs
    ensures j != k ==> j in st.jobs && next.jobs[j] == st.jobs[j]
    ensures j == k ==> !Says(next.jobs[j], x)
  {
  }

  lemma NewcomerIsSafe(c: Protocol.Core, k: JobId, j: JobId)
    requires k !in c.procs
    ensures Doom(Protocol.Step(c, Protocol.Start(k)), k).None?
    ensures j != k ==> Doom(Protocol.Step(c, Protocol.Start(k)), j) == Doom(c, j)
    ensures Protocol.Step(c, Protocol.Start(k)).procs.Keys == c.procs.Keys + {k}
  {
  }

  lemma StepSays(cfg: Config, s: State, i: Input, j: JobId, x: Ending)
    requires Inv(cfg, s) && Enabled(s, i) && j in Step(cfg, s, i).store.jobs
    ensures Said(Step(cfg, s, i), j, x) <==> Said(s, j, x) || InputDecides(s, i, j, x)
  {
    hide Inv, Submitted, Protocol.Step, Protocol.Enabled, Decides, Ops, Final, WillSay;
    match i
    case Submit(k, mode, now) => SubmitSays(cfg, s, k, mode, now, j, x);
    case Ask(_, _) =>
    case Happens(e, now) => EventSays(cfg, s, e, now, j, x);
  }

  /** A job that is not known yet is not decided on. */
  lemma NotBeforeBirth(s: State, i: Input, j: JobId, x: Ending)
    requires Enabled(s, i) && j !in s.core.procs
    ensures !InputDecides(s, i, j, x) && !Said(s, j, x)
  {
  }

  lemma {:induction false} RunSays(cfg: Config, s: State, ins: seq<Input>, j: JobId, x: Ending)
    requires Inv(cfg, s) && Possible(cfg, s, ins) && j in After(cfg, s, ins).store.jobs
    ensures Said(After(cfg, s, ins), j, x) <==> Said(s, j, x) || EverDecides(cfg, s, ins, j, x)
    decreases |ins|
  {
    hide Inv, Step, Enabled, Said, InputDecides;
    if ins != [] {
      StepKeepsInv(cfg, s, ins[0]);
      RunSays(cfg, Step(cfg, s, ins[0]), ins[1..], j, x);
      FirstStepSays(cfg, s, ins, j, x);
    }
  }

  lemma FirstStepSays(cfg: Config, s: State, ins: seq<Input>, j: JobId, x: Ending)
    requires Inv(cfg, s) && Possible(cfg, s, ins) && ins != [] && j in After(cfg, s, ins).store.jobs
    ensures Said(Step(cfg, s, ins[0]), j, x) <==> Said(s, j, x) || InputDecides(s, ins[0], j, x)
  {
    hide Inv, Step, Enabled, InputDecides;
    var t := Step(cfg, s, ins[0]);
    StepKeepsInv(cfg, s, ins[0]);
    if j in t.core.procs {
      RunContinues(cfg, t, ins[1..], j);
      NeverBack(t, After(cfg, t, ins[1..]), j);
      StepSays(cfg, s, ins[0], j, x);
    } else {
      BornLater(cfg, s, ins[0], j);
      NotBeforeBirth(s, ins[0], j, x);
    }
  }

  lemma NeverBack(s: State, t: State, j: JobId)
    requires Continues(s, t, j) && j in t.store.jobs
    ensures j in s.store.jobs
  {
  }

  lemma BornLater(cfg: Config, s: State, i: Input, j: JobId)
    requires Inv(cfg, s) && Enabled(s, i) && j !in Step(cfg, s, i).core.procs
    ensures j !in s.core.procs
  {
    hide Inv, Step, Enabled;
    if j in s.core.procs {
      StepContinues(cfg, s, i, j);
      KnownLater(s, Step(cfg, s, i), j);
    }
  }

  /**
   * Over every run of the service, for every ending: a record says that its job ended so if and only if some step of
   * the run decided it. For endings that are recorded when a rejection is caught, once the job has ended.
   */
  lemma EndsExactlyWhenDecided(cfg: Config, s: State, ins: seq<Input>, j: JobId, x: Ending)
    requires Init(s) && Possible(cfg, s, ins) && j in After(cfg, s, ins).store.jobs
    requires RecordedAtOnce(x) || Protocol.PhaseOf(After(cfg, s, ins).core, j).Ended?
    ensures Says(After(cfg, s, ins).store.jobs[j], x) <==> EverDecides(cfg, s, ins, j, x)
  {
    InitInv(cfg, s);
    assert !Said(s, j, x);
    hide Inv, Init, Possible, After, EverDecides;
    RunSays(cfg, s, ins, j, x);
    RunKeepsInv(cfg, s, ins);
    var t := After(cfg, s, ins);
    StoreFits(cfg, t, j);
    if RecordedAtOnce(x) { AtOnceIsNoDoom(Doom(t.core, j), x); }
  }

  /** The ending that a finished record tells of. */
  function EndingOf(r: Store.Job): Ending {
    if r.state.Responded? || r.failure.None? then Success else Failure(r.failure.value)
  }

  lemma SaysOneEnding(cfg: Config, s: State, j: JobId, x: Ending)
    requires Inv(cfg, s) && j in s.store.jobs && Protocol.PhaseOf(s.core, j).Ended?
    ensures Says(s.store.jobs[j], x) <==> x == EndingOf(s.store.jobs[j])
  {
    StoreFits(cfg, s, j);
    hide Inv;
  }

  lemma DecidedAsRecorded(cfg: Config, s: State, ins: seq<Input>, j: JobId, x: Ending)
    requires Init(s) && Possible(cfg, s, ins) && j in After(cfg, s, ins).store.jobs
    requires Protocol.PhaseOf(After(cfg, s, ins).core, j).Ended?
    ensures EverDecides(cfg, s, ins, j, x) <==> x == EndingOf(After(cfg, s, ins).store.jobs[j])
  {
    InitInv(cfg, s);
    hide Inv, Init, Possible, After, EverDecides, Says, EndingOf, RecordedAtOnce;
    EndsExactlyWhenDecided(cfg, s, ins, j, x);
    RunKeepsInv(cfg, s, ins);
    SaysOneEnding(cfg, After(cfg, s, ins), j, x);
  }

  /** ... and a job that has ended was decided on, for one ending and no other. */
  lemma OneEndingEach(cfg: Config, s: State, ins: seq<Input>, j: JobId, x: Ending, y: Ending)
    requires Init(s) && Possible(cfg, s, ins) && j in After(cfg, s, ins).store.jobs
    requires Protocol.PhaseOf(After(cfg, s, ins).core, j).Ended?
    ensures exists z :: EverDecides(cfg, s, ins, j, z)
    ensures EverDecides(cfg, s, ins, j, x) && EverDecides(cfg, s, ins, j, y) ==> x == y
  {
    hide Init, Possible, After, EverDecides, EndingOf;
    DecidedAsRecorded(cfg, s, ins, j, x);
    DecidedAsRecorded(cfg, s, ins, j, y);
    DecidedAsRecorded(cfg, s, ins, j, EndingOf(After(cfg, s, ins).store.jobs[j]));
  }

  /**
   * The record of a job that has ended says `shutdown` if and only if some step of the run took that job, already
   * told to stop, to one of the three checks between phases.
   */
  lemma ShutdownRecordedExactlyWhen(cfg: Config, s: State, ins: seq<Input>, j: JobId)
    requires Init(s) && Possible(cfg, s, ins)
    requires var t := After(cfg, s, ins); j in t.store.jobs && Protocol.PhaseOf(t.core, j).Ended?
    ensures After(cfg, s, ins).store.jobs[j].failure == Some(Store.Shutdown) <==> EverStops(cfg, s, ins, j)
  {
    hide Init, Possible, After;
    EndsExactlyWhenDecided(cfg, s, ins, j, Failure(Store.Shutdown));
    StopsAreDecisions(cfg, s, ins, j);
  }

  /** Some step of the run took job `j`, told to stop, to a check. */
  ghost predicate EverStops(cfg: Config, s: State, ins: seq<Input>, j: JobId)
    requires Possible(cfg, s, ins)
    decreases |ins|
  {
    ins != [] && ((ins[0].Happens? && StopsAtCheck(s.core, ins[0].event, j))
                  || EverStops(cfg, Step(cfg, s, ins[0]), ins[1..], j))
  }

  lemma {:induction false} StopsAreDecisions(cfg: Config, s: State, ins: seq<Input>, j: JobId)
    requires Possible(cfg, s, ins)
    ensures EverStops(cfg, s, ins, j) <==> EverDecides(cfg, s, ins, j, Failure(Store.Shutdown))
    decreases |ins|
  {
    hide Step, Protocol.Enabled, StopsAtCheck;
    if ins != [] { StopsAreDecisions(cfg, Step(cfg, s, ins[0]), ins[1..], j); }
  }
}
