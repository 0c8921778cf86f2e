/**
 * Lease exclusivity over every interleaving: busy workers and jobs holding an unreleased lease
 * are in bijection, and only the job that holds a worker ever gives it back.
 */
module LeaseSafety {
  import opened Options
  import opened PoolModel
  import opened JobProtocol

  ghost predicate HasLease(p: Pool, at: Place, t: Ticket) {
    at < |p.workers| && p.workers[at].lessee == Some(t)
  }

  /** Every ticket belongs to the one job that asked for it. */
  ghost predicate Tickets(c: Core) {
    && |c.callers| == c.pool.next
    && (forall t :: 0 <= t < |c.callers| ==> c.callers[t] in c.procs && c.procs[c.callers[t]].ticket == Some(t))
  }

  /** A job's variables agree with where it is suspended. */
  ghost predicate ProcOk(c: Core, j: JobId)
    requires j in c.procs
  {
    var pr := c.procs[j];
    && (pr.ticket.Some? ==> pr.ticket.value < |c.callers| && c.callers[pr.ticket.value] == j)
    && (Early(pr.phase) ==> pr.ticket.None? && pr.worker.None? && !pr.released)
    && (pr.phase.AwaitingLease? ==> pr.ticket.Some? && pr.worker.None? && !pr.released)
    && (Holding(pr.phase) ==>
          pr.ticket.Some? && pr.worker.Some? && !pr.released && HasLease(c.pool, pr.worker.value, pr.ticket.value))
    && (pr.phase.AwaitingRespond? ==> pr.ticket.Some? && pr.worker.Some? && pr.released)
    && (Over(pr.phase) && pr.worker.Some? ==> pr.released)
    && (pr.released ==> pr.worker.Some?)
    && (Over(pr.phase) && pr.worker.None? && pr.ticket.Some? ==>
          pr.ticket.value in c.pool.settled && !c.pool.settled[pr.ticket.value].Granted?)
    && (pr.phase.AwaitingLease? && pr.ticket.value in c.pool.settled && c.pool.settled[pr.ticket.value].Granted? ==>
          HasLease(c.pool, c.pool.settled[pr.ticket.value].at, pr.ticket.value))
  }

  /** Who is entitled to a worker whose lessee is `t`: its caller, not yet resumed or holding exactly it. */
  ghost predicate Entitled(c: Core, i: Place, t: Ticket) {
    && t < |c.callers| && c.callers[t] in c.procs
    && var pr := c.procs[c.callers[t]];
       pr.phase.AwaitingLease? || (Holding(pr.phase) && pr.worker == Some(i))
  }

  ghost predicate Leases(c: Core) { LeasesBut(c, {}) }

  /** `Leases`, while the tickets in `open` are neither queued nor settled. */
  ghost predicate LeasesBut(c: Core, open: set<Ticket>) {
    && WellFormedBut(c.pool, open)
    && Tickets(c)
    && (forall j :: j in c.procs ==> ProcOk(c, j))
    && (forall t :: t in c.pool.waiters || t in open ==> t < |c.callers| && c.procs[c.callers[t]].phase.AwaitingLease?)
    && (forall i :: 0 <= i < |c.pool.workers| && c.pool.workers[i].lessee.Some? ==>
          Entitled(c, i, c.pool.workers[i].lessee.value))
  }

  lemma PoolIsWellFormed(c: Core)
    requires Leases(c)
    ensures WellFormed(c.pool)
  {
  }

  /** A job moves on: its ticket stays, it does not leave a queue, and it keeps the worker it holds. */
  lemma JobMoves(c: Core, j: JobId, pr: Proc)
    requires Leases(c) && j in c.procs && pr.ticket == c.procs[j].ticket
    requires ProcOk(c.(procs := c.procs[j := pr]), j)
    requires c.procs[j].phase.AwaitingLease? ==> c.procs[j].ticket.value !in c.pool.waiters
    requires forall i :: 0 <= i < |c.pool.workers| && pr.ticket.Some? && HasLease(c.pool, i, pr.ticket.value) ==>
      pr.phase.AwaitingLease? || (Holding(pr.phase) && pr.worker == Some(i))
    ensures Leases(c.(procs := c.procs[j := pr]))
  {
    var d := c.(procs := c.procs[j := pr]);
    forall k | k in d.procs ensures ProcOk(d, k) {
      if k != j { assert ProcOk(c, k); }
    }
  }

  /** The pool changes, but neither who leases what nor who waits. */
  lemma PoolChanges(c: Core, p: Pool)
    requires Leases(c) && WellFormed(p)
    requires p.waiters == c.pool.waiters && p.settled == c.pool.settled && p.next == c.pool.next
    requires |p.workers| == |c.pool.workers|
    requires forall i :: 0 <= i < |p.workers| ==> p.workers[i].lessee == c.pool.workers[i].lessee
    ensures Leases(c.(pool := p))
  {
    var d := c.(pool := p);
    forall k | k in d.procs ensures ProcOk(d, k) {
      assert ProcOk(c, k);
    }
    forall i | 0 <= i < |d.pool.workers| && d.pool.workers[i].lessee.Some?
      ensures Entitled(d, i, d.pool.workers[i].lessee.value)
    {
      assert Entitled(c, i, c.pool.workers[i].lessee.value);
    }
  }

  /** The chain and the sweeps play no part in who leases what. */
  lemma OnlyJobsAndPool(c: Core, d: Core)
    requires Leases(c) && d.pool == c.pool && d.procs == c.procs && d.callers == c.callers
    ensures Leases(d)
  {
    forall k | k in d.procs ensures ProcOk(d, k) {
      assert ProcOk(c, k);
    }
    forall i | 0 <= i < |d.pool.workers| && d.pool.workers[i].lessee.Some?
      ensures Entitled(d, i, d.pool.workers[i].lessee.value)
    {
      assert Entitled(c, i, c.pool.workers[i].lessee.value);
    }
  }

  // ------------------------------------------------------------------ tickets being settled

  lemma GrantKeepsLeases(c: Core, at: Place, t: Ticket)
    requires LeasesBut(c, {t}) && at < |c.pool.workers| && c.pool.workers[at].Eligible()
    ensures Leases(c.(pool := Lease(c.pool, at, t)))
  {
    var d := c.(pool := Lease(c.pool, at, t));
    LeaseKeeps(c.pool, at, t);
    forall k | k in d.procs ensures ProcOk(d, k) {
      assert ProcOk(c, k);
    }
    forall i | 0 <= i < |d.pool.workers| && d.pool.workers[i].lessee.Some?
      ensures Entitled(d, i, d.pool.workers[i].lessee.value)
    {
      if i != at { assert Entitled(c, i, c.pool.workers[i].lessee.value); }
    }
  }

  lemma RefusalKeepsLeases(c: Core, t: Ticket, o: Outcome)
    requires LeasesBut(c, {t}) && !o.Granted?
    ensures Leases(c.(pool := c.pool.(settled := c.pool.settled[t := o])))
  {
    var d := c.(pool := c.pool.(settled := c.pool.settled[t := o]));
    assert t !in c.pool.grants;
    forall k | k in d.procs ensures ProcOk(d, k) {
      assert ProcOk(c, k);
    }
    forall i | 0 <= i < |d.pool.workers| && d.pool.workers[i].lessee.Some?
      ensures Entitled(d, i, d.pool.workers[i].lessee.value)
    {
      assert Entitled(c, i, c.pool.workers[i].lessee.value);
    }
  }

  lemma QueueingKeepsLeases(c: Core, t: Ticket)
    requires LeasesBut(c, {t}) && t + 1 == c.pool.next
    ensures Leases(c.(pool := c.pool.(waiters := c.pool.waiters + [t])))
  {
    hide WellFormedBut;
    var d := c.(pool := c.pool.(waiters := c.pool.waiters + [t]));
    EnqueueKeeps(c.pool, t);
    forall k | k in d.procs ensures ProcOk(d, k) {
      assert ProcOk(c, k);
    }
    forall i | 0 <= i < |d.pool.workers| && d.pool.workers[i].lessee.Some?
      ensures Entitled(d, i, d.pool.workers[i].lessee.value)
    {
      assert Entitled(c, i, c.pool.workers[i].lessee.value);
    }
  }

  /** Taking a ticket out of the queue leaves it open. */
  lemma LeavesQueue(c: Core, t: Ticket, rest: seq<Ticket>)
    requires Leases(c) && t in c.pool.waiters && Increasing(rest)
    requires forall u :: u in rest <==> u in c.pool.waiters && u != t
    ensures LeasesBut(c.(pool := c.pool.(waiters := rest)), {t})
  {
    var d := c.(pool := c.pool.(waiters := rest));
    forall k | k in d.procs ensures ProcOk(d, k) {
      assert ProcOk(c, k);
    }
    forall i | 0 <= i < |d.pool.workers| && d.pool.workers[i].lessee.Some?
      ensures Entitled(d, i, d.pool.workers[i].lessee.value)
    {
      assert Entitled(c, i, c.pool.workers[i].lessee.value);
    }
  }

  /** The job's call of `acquireWithin`, before the pool decides about it. */
  function Asked(c: Core, j: JobId): Core
    requires j in c.procs
  {
    c.(pool := c.pool.(next := c.pool.next + 1),
       callers := c.callers + [j],
       procs := c.procs[j := c.procs[j].(phase := AwaitingLease, ticket := Some(c.pool.next))])
  }

  lemma OpensTicket(p: Pool)
    requires WellFormed(p)
    ensures WellFormedBut(p.(next := p.next + 1), {p.next})
  {
  }

  lemma AskedProcOk(c: Core, j: JobId, k: JobId)
    requires Leases(c) && j in c.procs && Early(c.procs[j].phase) && k in c.procs
    ensures k in Asked(c, j).procs && ProcOk(Asked(c, j), k)
  {
    assert ProcOk(c, j) && ProcOk(c, k);
    hide WellFormedBut;
  }

  lemma AskedEntitled(c: Core, j: JobId, i: Place)
    requires Leases(c) && j in c.procs && Early(c.procs[j].phase)
    requires i < |c.pool.workers| && c.pool.workers[i].lessee.Some?
    ensures Entitled(Asked(c, j), i, c.pool.workers[i].lessee.value)
  {
    assert Entitled(c, i, c.pool.workers[i].lessee.value) && ProcOk(c, j);
    hide WellFormedBut;
  }

  lemma AskingOpensTicket(c: Core, j: JobId)
    requires Leases(c) && j in c.procs && Early(c.procs[j].phase)
    ensures LeasesBut(Asked(c, j), {c.pool.next})
  {
    var d := Asked(c, j);
    OpensTicket(c.pool);
    assert ProcOk(c, j) && c.procs[j].ticket.None?;
    hide WellFormedBut, ProcOk, Entitled;
    forall k | k in d.procs ensures ProcOk(d, k) { AskedProcOk(c, j, k); }
    forall i | 0 <= i < |d.pool.workers| && d.pool.workers[i].lessee.Some?
      ensures Entitled(d, i, d.pool.workers[i].lessee.value)
    {
      AskedEntitled(c, j, i);
    }
  }

  lemma {:induction false} HandOffKeepsLeases(c: Core)
    requires Leases(c)
    ensures Leases(c.(pool := HandOff(c.pool)))
    decreases |c.pool.waiters|
  {
    var p := c.pool;
    if p.waiters != [] && Available(p).Some? {
      var popped := c.(pool := p.(waiters := p.waiters[1..]));
      PopKeeps(p);
      assert forall u :: u in p.waiters <==> u == p.waiters[0] || u in p.waiters[1..];
      LeavesQueue(c, p.waiters[0], p.waiters[1..]);
      GrantKeepsLeases(popped, Available(p).value, p.waiters[0]);
      var d := popped.(pool := Lease(popped.pool, Available(p).value, p.waiters[0]));
      HandOffKeepsLeases(d);
      assert d.(pool := HandOff(d.pool)) == c.(pool := HandOff(p));
    } else {
      assert c.(pool := HandOff(p)) == c;
    }
  }

  // ------------------------------------------------------------------ giving a lease back

  /** `releaseLease` just before the address is handed on. */
  function Returned(c: Core, j: JobId, ph: Phase): Core
    requires j in c.procs && c.procs[j].worker.Some?
  {
    c.(pool := Free(c.pool, c.procs[j].worker.value),
       procs := c.procs[j := c.procs[j].(phase := ph, released := true)])
  }

  lemma ReturningKeepsLeases(c: Core, j: JobId, ph: Phase)
    requires Leases(c) && j in c.procs && Holding(c.procs[j].phase) && (Over(ph) || ph.AwaitingRespond?)
    ensures Leases(Returned(c, j, ph))
  {
    var d := Returned(c, j, ph);
    var at, t := c.procs[j].worker.value, c.procs[j].ticket.value;
    assert ProcOk(c, j);
    FreeKeeps(c.pool, at);
    forall k | k in d.procs ensures ProcOk(d, k) {
      assert ProcOk(c, k);
    }
    forall i | 0 <= i < |d.pool.workers| && d.pool.workers[i].lessee.Some?
      ensures Entitled(d, i, d.pool.workers[i].lessee.value)
    {
      assert Entitled(c, i, c.pool.workers[i].lessee.value);
    }
  }

  /** Any exit, whether or not a lease is still held. */
  lemma CloseKeepsLeases(c: Core, j: JobId, ph: Phase)
    requires Leases(c) && j in c.procs
    requires Over(ph) || (ph.AwaitingRespond? && Holding(c.procs[j].phase))
    requires c.procs[j].phase.AwaitingLease? ==>
      c.procs[j].ticket.value in c.pool.settled && !c.pool.settled[c.procs[j].ticket.value].Granted?
    ensures Leases(Close(c, j, ph))
  {
    assert ProcOk(c, j);
    var pr := c.procs[j];
    if Holding(pr.phase) {
      ReturningKeepsLeases(c, j, ph);
      var d := Returned(c, j, ph);
      HandOffKeepsLeases(d);
      assert d.(pool := HandOff(d.pool)) == Close(c, j, ph);
    } else {
      if pr.ticket.Some? { NothingHeld(c, j); }
      JobMoves(c, j, pr.(phase := ph));
    }
  }

  /** A job that is not holding is nobody's lessee, unless its grant is still on the way. */
  lemma NothingHeld(c: Core, j: JobId)
    requires Leases(c) && j in c.procs && !Holding(c.procs[j].phase) && c.procs[j].ticket.Some?
    requires c.procs[j].phase.AwaitingLease? ==>
      c.procs[j].ticket.value in c.pool.settled && !c.pool.settled[c.procs[j].ticket.value].Granted?
    ensures forall i :: !HasLease(c.pool, i, c.procs[j].ticket.value)
  {
    var t := c.procs[j].ticket.value;
    assert ProcOk(c, j);
    forall i ensures !HasLease(c.pool, i, t) {
      assert HasLease(c.pool, i, t) ==> Entitled(c, i, t);
    }
  }

  // ------------------------------------------------------------------ every step

  lemma GotoKeepsLeases(c: Core, j: JobId, ph: Phase)
    requires Leases(c) && j in c.procs
    requires var was := c.procs[j].phase;
      (Early(was) && Early(ph)) || (Holding(was) && Holding(ph)) || (Over(was) && Over(ph))
    ensures Leases(Goto(c, j, ph))
  {
    assert ProcOk(c, j);
    var pr := c.procs[j];
    forall i | 0 <= i < |c.pool.workers| && pr.ticket.Some? && HasLease(c.pool, i, pr.ticket.value)
      ensures Holding(ph) && pr.worker == Some(i)
    {
      assert Entitled(c, i, pr.ticket.value);
    }
    JobMoves(c, j, pr.(phase := ph));
  }

  lemma RebalanceKeepsLeases(c: Core, at: Place, balance: nat, minimum: nat)
    requires Leases(c)
    ensures Leases(Rebalanced(c, at, balance, minimum))
  {
    PoolChanges(c, SetBalance(c.pool, at, balance, minimum));
  }

  lemma QuarantineKeepsLeases(c: Core, at: Place, nonce: nat)
    requires Leases(c)
    ensures Leases(c.(pool := Quarantine(c.pool, at, nonce)))
  {
    PoolChanges(c, Quarantine(c.pool, at, nonce));
  }

  lemma UnlessAbortedKeepsLeases(c: Core, j: JobId, ph: Phase)
    requires Leases(c) && j in c.procs && Holding(c.procs[j].phase) && Holding(ph)
    ensures Leases(UnlessAborted(c, j, ph))
  {
    if c.procs[j].aborted { CloseKeepsLeases(c, j, Throwing(ShuttingDown)); } else { GotoKeepsLeases(c, j, ph); }
  }

  lemma ShortKeepsLeases(c: Core, j: JobId, balance: nat, minimum: nat)
    requires Leases(c) && j in c.procs && Holding(c.procs[j].phase)
    ensures Leases(Short(c, j, balance, minimum))
  {
    RebalanceKeepsLeases(c, LeaseOf(c, j), balance, minimum);
    CloseKeepsLeases(Rebalanced(c, LeaseOf(c, j), balance, minimum), j, Ended);
  }

  predicate Preflight(e: Event) { e.BalanceRead? || e.InsufficientFunds? || e.Estimated? }

  predicate Advances(e: Event) {
    e.NonceRead? || e.Instructed? || e.RequestSent? || e.Signed? || e.SendReturns? || e.Caught?
  }

  predicate Broadcasts(e: Event) { e.NodeAccepts? || e.SendThrows? || e.ConfirmTimesOut? }

  lemma PreflightKeepsLeases(c: Core, e: Event)
    requires Leases(c) && Preflight(e) && Enabled(c, e)
    ensures Leases(Resume(c, e))
  {
    hide Leases;
    var ph := PhaseOf(c, e.job);
    if e.InsufficientFunds? {
      ShortKeepsLeases(c, e.job, ph.balance, ph.balance + 1);
    } else if e.BalanceRead? {
      ShortKeepsLeases(c, e.job, e.balance, c.floor);
      UnlessAbortedKeepsLeases(c, e.job, ReadingNonce(e.balance));
    } else {
      ShortKeepsLeases(c, e.job, ph.balance, e.gasCost);
      UnlessAbortedKeepsLeases(c, e.job, Instructing(ph.nonce));
    }
  }

  lemma AdvanceKeepsLeases(c: Core, e: Event)
    requires Leases(c) && Advances(e) && Enabled(c, e)
    ensures Leases(Resume(c, e))
  {
    hide Leases;
    var ph := PhaseOf(c, e.job);
    if e.Caught? {
      GotoKeepsLeases(c, e.job, Ended);
    } else if e.NonceRead? {
      HolderKeepsLeases(c, e.job, Estimating(ph.balance, Latest(c.chain[LeaseOf(c, e.job)])));
    } else {
      HolderKeepsLeases(c, e.job, Resume(c, e).procs[e.job].phase);
    }
  }

  lemma HolderKeepsLeases(c: Core, j: JobId, ph: Phase)
    requires Leases(c) && j in c.procs && Holding(c.procs[j].phase) && Holding(ph)
    ensures Leases(Goto(c, j, ph))
  {
    GotoKeepsLeases(c, j, ph);
  }

  lemma BroadcastKeepsLeases(c: Core, e: Event)
    requires Leases(c) && Broadcasts(e) && Enabled(c, e)
    ensures Leases(Resume(c, e))
  {
    hide Leases;
    if e.NodeAccepts? {
      var d := Goto(c, e.job, Broadcasting(PhaseOf(c, e.job).nonce, true));
      GotoKeepsLeases(c, e.job, Broadcasting(PhaseOf(c, e.job).nonce, true));
      OnlyJobsAndPool(d, Accept(c, e.job));
    } else {
      GiveUpKeepsLeases(c, e.job);
    }
  }

  lemma LastPhasesKeepLeases(c: Core, e: Event)
    requires Leases(c) && Resumes(e) && !Preflight(e) && !Advances(e) && !Broadcasts(e) && Enabled(c, e)
    ensures Leases(Resume(c, e))
  {
    if e.Attached? && e.matches {
      GotoKeepsLeases(c, e.job, Broadcasting(PhaseOf(c, e.job).nonce, false));
    } else {
      CloseKeepsLeases(c, e.job, if e.Receipt? && e.success then AwaitingRespond else Ended);
    }
  }

  lemma GiveUpKeepsLeases(c: Core, j: JobId)
    requires Leases(c) && KnowsNonce(PhaseOf(c, j))
    ensures Leases(GiveUp(c, j))
  {
    var at, n := LeaseOf(c, j), NonceOf(PhaseOf(c, j));
    QuarantineKeepsLeases(c, at, n);
    CloseKeepsLeases(c.(pool := Quarantine(c.pool, at, n)), j, Ended);
  }

  lemma EndSweepKeepsLeases(c: Core, k: SweepId, failed: bool)
    requires Leases(c)
    ensures Leases(EndSweep(c, k, failed))
  {
    var d := c.(sweeps := c.sweeps - {k});
    OnlyJobsAndPool(c, d);
    if k.OfJob? && PhaseOf(c, k.job).Sweeping? {
      if failed { CloseKeepsLeases(d, k.job, Throwing(Unanticipated)); }
      else { GotoKeepsLeases(d, k.job, Refreshing(NextShort(c.pool.workers, 0))); }
    }
  }

  lemma AskLeaseKeepsLeases(c: Core, j: JobId)
    requires Leases(c) && j in c.procs && Early(c.procs[j].phase)
    ensures Leases(AskLease(c, j))
  {
    if c.procs[j].aborted {
      CloseKeepsLeases(c, j, Throwing(ShuttingDown));
    } else {
      var d, t := Asked(c, j), c.pool.next;
      AskingOpensTicket(c, j);
      match Available(c.pool)
      case Some(at) => GrantKeepsLeases(d, at, t);
      case None =>
        if Refusal(c.pool) == AllBusy {
          QueueingKeepsLeases(d, t);
        } else {
          RefusalKeepsLeases(d, t, Refused(AllUnderfunded));
        }
    }
  }

  lemma SettleLeaseKeepsLeases(c: Core, j: JobId)
    requires Leases(c) && Enabled(c, LeaseSettles(j))
    ensures Leases(SettleLease(c, j))
  {
    assert ProcOk(c, j);
    var pr, t := c.procs[j], c.procs[j].ticket.value;
    match c.pool.settled[t]
    case Granted(at) =>
      assert forall i :: 0 <= i < |c.pool.workers| && HasLease(c.pool, i, t) ==> i == at;
      JobMoves(c, j, pr.(phase := CheckingBalance, worker := Some(at)));
    case Refused(reason) => CloseKeepsLeases(c, j, Throwing(NoWorker(reason)));
    case Abandoned => CloseKeepsLeases(c, j, Throwing(Unanticipated));
  }

  lemma TimerKeepsLeases(c: Core, t: Ticket)
    requires Leases(c) && t in c.pool.waiters
    ensures Leases(c.(pool := Timeout(c.pool, t)))
  {
    WithoutIs(c.pool.waiters, t);
    var d := c.(pool := c.pool.(waiters := Without(c.pool.waiters, t)));
    LeavesQueue(c, t, d.pool.waiters);
    RefusalKeepsLeases(d, t, Refused(AllBusy));
  }

  lemma AbortKeepsLeases(c: Core)
    requires Leases(c)
    ensures Leases(Abort(c))
  {
    var d := Abort(c);
    ApplyKeeps(c.pool, RejectAll);
    forall k | k in d.procs ensures ProcOk(d, k) {
      assert ProcOk(c, k);
    }
    forall i | 0 <= i < |d.pool.workers| && d.pool.workers[i].lessee.Some?
      ensures Entitled(d, i, d.pool.workers[i].lessee.value)
    {
      assert Entitled(c, i, c.pool.workers[i].lessee.value);
    }
  }

  lemma StartKeepsLeases(c: Core, j: JobId)
    requires Leases(c) && j !in c.procs
    ensures Leases(Step(c, Start(j)))
  {
    var d := Step(c, Start(j));
    forall k | k in d.procs ensures ProcOk(d, k) {
      if k != j { assert ProcOk(c, k); }
    }
    forall i | 0 <= i < |d.pool.workers| && d.pool.workers[i].lessee.Some?
      ensures Entitled(d, i, d.pool.workers[i].lessee.value)
    {
      assert Entitled(c, i, c.pool.workers[i].lessee.value);
    }
  }

  predicate Sweeps(e: Event) { e.Verdict? || e.SweepFails? || e.SweepEnds? }

  predicate Asks(e: Event) { e.AsksLease? || e.LeaseTimer? || e.LeaseSettles? || e.AbortAll? }

  predicate Prepares(e: Event) { e.Start? || e.Derived? || e.Throws? || e.RequestRefreshes? || e.Refreshed? }

  lemma SweepKeepsLeases(c: Core, e: Event)
    requires Leases(c) && Sweeps(e) && Enabled(c, e)
    ensures Leases(Step(c, e))
  {
    if e.Verdict? {
      var p := Judged(c, e.sweep).pool;
      PoolChanges(c, p);
      OnlyJobsAndPool(c.(pool := p), Judged(c, e.sweep));
    } else {
      EndSweepKeepsLeases(c, e.sweep, e.SweepFails?);
    }
  }

  lemma AskKeepsLeases(c: Core, e: Event)
    requires Leases(c) && Asks(e) && Enabled(c, e)
    ensures Leases(Step(c, e))
  {
    hide Leases;
    if e.AsksLease? { AskLeaseKeepsLeases(c, e.job); }
    else if e.LeaseTimer? { TimerKeepsLeases(c, e.t); }
    else if e.LeaseSettles? { SettleLeaseKeepsLeases(c, e.job); }
    else { AbortKeepsLeases(c); }
  }

  lemma DerivedKeepsLeases(c: Core, j: JobId)
    requires Leases(c) && PhaseOf(c, j).Deriving?
    ensures Leases(Step(c, Derived(j)))
  {
    GotoKeepsLeases(c, j, Sweeping);
    OnlyJobsAndPool(Goto(c, j, Sweeping), Step(c, Derived(j)));
  }

  lemma PrepareKeepsLeases(c: Core, e: Event)
    requires Leases(c) && Prepares(e) && Enabled(c, e)
    ensures Leases(Step(c, e))
  {
    hide Leases;
    if e.Start? { StartKeepsLeases(c, e.job); }
    else if e.Derived? { DerivedKeepsLeases(c, e.job); }
    else if e.Throws? { CloseKeepsLeases(c, e.job, Throwing(Unanticipated)); }
    else if e.RequestRefreshes? { RebalanceKeepsLeases(c, e.at, e.balance, c.floor); }
    else {
      var at := PhaseOf(c, e.job).at;
      RebalanceKeepsLeases(c, at, e.balance, c.floor);
      var d := Rebalanced(c, at, e.balance, c.floor);
      GotoKeepsLeases(d, e.job, Refreshing(NextShort(d.pool.workers, at + 1)));
    }
  }

  lemma StepKeepsLeases(c: Core, e: Event)
    requires Leases(c) && Enabled(c, e)
    ensures Leases(Step(c, e))
  {
    hide Leases;
    if Sweeps(e) { SweepKeepsLeases(c, e); }
    else if Asks(e) { AskKeepsLeases(c, e); }
    else if Prepares(e) { PrepareKeepsLeases(c, e); }
    else if !Resumes(e) { OnlyJobsAndPool(c, Step(c, e)); }
    else if Preflight(e) { PreflightKeepsLeases(c, e); }
    else if Advances(e) { AdvanceKeepsLeases(c, e); }
    else if Broadcasts(e) { BroadcastKeepsLeases(c, e); }
    else { LastPhasesKeepLeases(c, e); }
  }

  lemma InitLeases(c: Core)
    requires Init(c)
    ensures Leases(c)
  {}

  /** In every state of every run. */
  lemma {:induction false} RunKeepsLeases(c: Core, es: seq<Event>)
    requires Leases(c) && Possible(c, es)
    ensures Leases(After(c, es))
    decreases |es|
  {
    hide Leases;
    if es != [] {
      StepKeepsLeases(c, es[0]);
      RunKeepsLeases(Step(c, es[0]), es[1..]);
    }
  }
}
