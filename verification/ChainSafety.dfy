/**
 * Nonce safety. In every state of every run, an address has at most one of the service's
 * transactions unresolved, at the next nonce, and it belongs to the job that leases the
 * address or to the worker's `pendingNonce`; unless a sweep clears a quarantine while a
 * transaction is still outstanding, and exactly then.
 */
module ChainSafety {
  import opened Options
  import opened PoolModel
  import opened JobProtocol
  import opened LeaseSafety

  /** What the job that leases an address knows about its account. */
  ghost predicate HolderOk(ph: Phase, j: JobId, a: Account) {
    && (Sent(ph) ==> forall x :: x in a.outstanding ==> x == Tx(j, NonceOf(ph)))
    && (!Sent(ph) ==> a.outstanding == {})
    && (KnowsNonce(ph) && !Sent(ph) ==> NonceOf(ph) == Latest(a))
  }

  /** The job leasing a worker, when there is one. */
  ghost predicate LeasedBy(c: Core, i: Place, j: JobId) {
    && i < |c.pool.workers| && c.pool.workers[i].lessee.Some?
    && c.pool.workers[i].lessee.value < |c.callers| && c.callers[c.pool.workers[i].lessee.value] == j
    && j in c.procs
  }

  ghost predicate AccountOk(c: Core, i: Place)
    requires i < |c.pool.workers| && i < |c.chain|
  {
    var w, a := c.pool.workers[i], c.chain[i];
    && (forall x :: x in a.outstanding ==> x.nonce == Latest(a))
    && (forall x, y :: x in a.outstanding && y in a.outstanding ==> x == y)
    && (w.pendingNonce.Some? ==> !w.busy && forall x :: x in a.outstanding ==> x.nonce == w.pendingNonce.value)
    && (!w.busy && w.pendingNonce.None? ==> a.outstanding == {})
    && (forall j :: LeasedBy(c, i, j) ==> HolderOk(c.procs[j].phase, j, a))
  }

  ghost predicate Accounts(c: Core) {
    && |c.chain| == |c.pool.workers|
    && forall i :: 0 <= i < |c.chain| ==> AccountOk(c, i)
  }

  ghost predicate Inv(c: Core) { Leases(c) && Accounts(c) }

  /** Accounts, leases, quarantines and the phases of the lessees are as before. */
  lemma AccountsUntouched(c: Core, d: Core)
    requires Accounts(c) && Leases(c) && d.chain == c.chain
    requires |d.pool.workers| == |c.pool.workers|
    requires forall i :: 0 <= i < |c.pool.workers| ==>
      && d.pool.workers[i].busy == c.pool.workers[i].busy && d.pool.workers[i].lessee == c.pool.workers[i].lessee
      && d.pool.workers[i].pendingNonce == c.pool.workers[i].pendingNonce
    requires |d.callers| >= |c.callers| && forall t :: 0 <= t < |c.callers| ==> d.callers[t] == c.callers[t]
    requires forall i: Place, j :: LeasedBy(c, i, j) ==> j in d.procs && d.procs[j].phase == c.procs[j].phase
    ensures Accounts(d)
  {
    forall i | 0 <= i < |d.chain| ensures AccountOk(d, i) {
      assert AccountOk(c, i);
      forall j | LeasedBy(d, i, j) ensures HolderOk(d.procs[j].phase, j, d.chain[i]) {
        var t := c.pool.workers[i].lessee.value;
        assert Entitled(c, i, t);
        assert LeasedBy(c, i, j);
      }
    }
  }

  /** The lessee of one worker moves on and its account changes; the other accounts stay. */
  lemma OneAccount(c: Core, d: Core, j: JobId, at: Place)
    requires Inv(c) && j in c.procs && Holding(c.procs[j].phase) && LeaseOf(c, j) == at
    requires d.pool == c.pool && d.callers == c.callers && |d.chain| == |c.chain| && d.procs.Keys == c.procs.Keys
    requires forall k :: k in c.procs && k != j ==> d.procs[k] == c.procs[k]
    requires forall i :: 0 <= i < |c.chain| && i != at ==> d.chain[i] == c.chain[i]
    requires at < |d.chain| && forall x :: x in d.chain[at].outstanding ==> x.nonce == Latest(d.chain[at])
    requires forall x, y :: x in d.chain[at].outstanding && y in d.chain[at].outstanding ==> x == y
    requires HolderOk(d.procs[j].phase, j, d.chain[at])
    ensures Accounts(d)
  {
    assert ProcOk(c, j);
    forall i | 0 <= i < |d.chain| ensures AccountOk(d, i) {
      assert AccountOk(c, i);
      forall k | LeasedBy(d, i, k) ensures HolderOk(d.procs[k].phase, k, d.chain[i]) {
        assert Entitled(c, i, c.pool.workers[i].lessee.value);
        assert LeasedBy(c, i, k);
      }
    }
  }

  // ------------------------------------------------------------------ handing a free address on

  lemma GrantKeepsAccounts(c: Core, at: Place, t: Ticket)
    requires LeasesBut(c, {t}) && Accounts(c) && at < |c.pool.workers| && c.pool.workers[at].Eligible()
    ensures Accounts(c.(pool := Lease(c.pool, at, t)))
  {
    var d := c.(pool := Lease(c.pool, at, t));
    forall i | 0 <= i < |d.chain| ensures AccountOk(d, i) {
      assert AccountOk(c, i);
      forall j | LeasedBy(d, i, j) ensures HolderOk(d.procs[j].phase, j, d.chain[i]) {
        if i != at { assert LeasedBy(c, i, j); }
      }
    }
  }

  lemma {:induction false} HandOffKeepsInv(c: Core)
    requires Inv(c)
    ensures Inv(c.(pool := HandOff(c.pool)))
    decreases |c.pool.waiters|
  {
    var p := c.pool;
    if p.waiters != [] && Available(p).Some? {
      var t, at := p.waiters[0], Available(p).value;
      var popped := c.(pool := p.(waiters := p.waiters[1..]));
      var d := popped.(pool := Lease(popped.pool, at, t));
      PopKeeps(p);
      assert forall u :: u in p.waiters <==> u == t || u in p.waiters[1..];
      LeavesQueue(c, t, p.waiters[1..]);
      AccountsUntouched(c, popped);
      GrantKeepsLeases(popped, at, t);
      GrantKeepsAccounts(popped, at, t);
      HandOffKeepsInv(d);
      assert d.(pool := HandOff(d.pool)) == c.(pool := HandOff(p));
    } else {
      assert c.(pool := HandOff(p)) == c;
    }
  }

  // ------------------------------------------------------------------ exits

  /** Freeing a worker whose job is done with it: nothing outstanding, or quarantined at that nonce. */
  lemma ReturningKeepsAccounts(c: Core, p: Pool, j: JobId, ph: Phase)
    requires Inv(c) && j in c.procs && Holding(c.procs[j].phase) && (Over(ph) || ph.AwaitingRespond?)
    requires LeaseOf(c, j) < |c.chain|
    requires
      || (p == c.pool && c.chain[LeaseOf(c, j)].outstanding == {})
      || (KnowsNonce(c.procs[j].phase) && p == Quarantine(c.pool, LeaseOf(c, j), NonceOf(c.procs[j].phase))
          && forall x :: x in c.chain[LeaseOf(c, j)].outstanding ==> x.nonce == NonceOf(c.procs[j].phase))
    requires Leases(c.(pool := p))
    ensures Accounts(Returned(c.(pool := p), j, ph))
  {
    var at, d := LeaseOf(c, j), Returned(c.(pool := p), j, ph);
    assert ProcOk(c, j);
    assert LeasedBy(c, at, j);
    forall i | 0 <= i < |d.chain| ensures AccountOk(d, i) {
      assert AccountOk(c, i);
      forall k | LeasedBy(d, i, k) ensures HolderOk(d.procs[k].phase, k, d.chain[i]) {
        assert Entitled(c, i, c.pool.workers[i].lessee.value);
        assert LeasedBy(c, i, k);
      }
    }
  }

  /** An exit with nothing outstanding, or with no lease left to give back. */
  lemma CloseKeepsInv(c: Core, j: JobId, ph: Phase)
    requires Inv(c) && j in c.procs
    requires Over(ph) || (ph.AwaitingRespond? && Holding(c.procs[j].phase))
    requires c.procs[j].phase.AwaitingLease? ==>
      c.procs[j].ticket.value in c.pool.settled && !c.pool.settled[c.procs[j].ticket.value].Granted?
    requires Holding(c.procs[j].phase) && LeaseOf(c, j) < |c.chain| ==> c.chain[LeaseOf(c, j)].outstanding == {}
    ensures Inv(Close(c, j, ph))
  {
    assert ProcOk(c, j);
    CloseKeepsLeases(c, j, ph);
    if Holding(c.procs[j].phase) {
      ReturningKeepsLeases(c, j, ph);
      ReturningKeepsAccounts(c, c.pool, j, ph);
      var d := Returned(c, j, ph);
      assert c.(pool := c.pool) == c;
      HandOffKeepsInv(d);
      assert d.(pool := HandOff(d.pool)) == Close(c, j, ph);
    } else {
      IdleJobMoves(c, j, ph);
    }
  }

  lemma NotLessee(c: Core, j: JobId)
    requires Leases(c) && j in c.procs && !Holding(c.procs[j].phase)
    requires c.procs[j].phase.AwaitingLease? ==>
      c.procs[j].ticket.value in c.pool.settled && !c.pool.settled[c.procs[j].ticket.value].Granted?
    ensures forall i: Place :: !LeasedBy(c, i, j)
  {
    if c.procs[j].ticket.Some? { NothingHeld(c, j); }
  }

  /** A job that leases nothing changes phase. */
  lemma IdleJobMoves(c: Core, j: JobId, ph: Phase)
    requires Inv(c) && j in c.procs && !Holding(c.procs[j].phase)
    requires c.procs[j].phase.AwaitingLease? ==>
      c.procs[j].ticket.value in c.pool.settled && !c.pool.settled[c.procs[j].ticket.value].Granted?
    ensures Accounts(Goto(c, j, ph))
  {
    assert ProcOk(c, j);
    NotLessee(c, j);
    AccountsUntouched(c, Goto(c, j, ph));
  }

  /** The address is withheld and given back in one segment, whatever became of the broadcast. */
  lemma GiveUpKeepsInv(c: Core, j: JobId)
    requires Inv(c) && KnowsNonce(PhaseOf(c, j)) && (PhaseOf(c, j).Broadcasting? || PhaseOf(c, j).Confirming?)
    ensures Inv(GiveUp(c, j))
  {
    assert ProcOk(c, j);
    var at, n := LeaseOf(c, j), NonceOf(PhaseOf(c, j));
    var p := Quarantine(c.pool, at, n);
    assert LeasedBy(c, at, j);
    assert AccountOk(c, at);
    GiveUpKeepsLeases(c, j);
    QuarantineKeepsLeases(c, at, n);
    ReturningKeepsAccounts(c, p, j, Ended);
    ReturningKeepsLeases(c.(pool := p), j, Ended);
    var d := Returned(c.(pool := p), j, Ended);
    HandOffKeepsInv(d);
    assert d.(pool := HandOff(d.pool)) == GiveUp(c, j);
  }

  // ------------------------------------------------------------------ steps of the job that leases the address

  /** The account the lessee works on, as its phase describes it. */
  lemma OwnAccount(c: Core, j: JobId)
    requires Inv(c) && j in c.procs && Holding(c.procs[j].phase)
    ensures LeaseOf(c, j) < |c.chain| && LeasedBy(c, LeaseOf(c, j), j) && AccountOk(c, LeaseOf(c, j))
    ensures HolderOk(c.procs[j].phase, j, c.chain[LeaseOf(c, j)])
  {
    assert ProcOk(c, j);
    assert AccountOk(c, LeaseOf(c, j));
  }

  lemma HolderMoves(c: Core, j: JobId, ph: Phase)
    requires Inv(c) && j in c.procs && Holding(c.procs[j].phase) && Holding(ph)
    requires LeaseOf(c, j) < |c.chain| ==> HolderOk(ph, j, c.chain[LeaseOf(c, j)])
    ensures Inv(Goto(c, j, ph))
  {
    OwnAccount(c, j);
    GotoKeepsLeases(c, j, ph);
    OneAccount(c, Goto(c, j, ph), j, LeaseOf(c, j));
  }

  lemma UnlessAbortedKeepsInv(c: Core, j: JobId, ph: Phase)
    requires Inv(c) && j in c.procs && Holding(c.procs[j].phase) && Holding(ph) && !Sent(c.procs[j].phase)
    requires LeaseOf(c, j) < |c.chain| ==> HolderOk(ph, j, c.chain[LeaseOf(c, j)])
    ensures Inv(UnlessAborted(c, j, ph))
  {
    OwnAccount(c, j);
    if c.procs[j].aborted { CloseKeepsInv(c, j, Throwing(ShuttingDown)); } else { HolderMoves(c, j, ph); }
  }

  lemma RebalanceKeepsInv(c: Core, at: Place, balance: nat, minimum: nat)
    requires Inv(c)
    ensures Inv(Rebalanced(c, at, balance, minimum))
  {
    RebalanceKeepsLeases(c, at, balance, minimum);
    AccountsUntouched(c, Rebalanced(c, at, balance, minimum));
  }

  lemma ShortKeepsInv(c: Core, j: JobId, balance: nat, minimum: nat)
    requires Inv(c) && j in c.procs && Holding(c.procs[j].phase) && !Sent(c.procs[j].phase)
    ensures Inv(Short(c, j, balance, minimum))
  {
    OwnAccount(c, j);
    RebalanceKeepsInv(c, LeaseOf(c, j), balance, minimum);
    CloseKeepsInv(Rebalanced(c, LeaseOf(c, j), balance, minimum), j, Ended);
  }

  /** The transaction that job `j` has signed takes the next nonce of its address and has nothing beside it. */
  ghost predicate Alone(c: Core, j: JobId)
    requires Enabled(c, NodeAccepts(j))
  {
    var at, n := LeaseOf(c, j), PhaseOf(c, j).nonce;
    && c.chain[at].outstanding == {} && n == Latest(c.chain[at])
    && Accept(c, j).chain[at].outstanding == {Tx(j, n)}
  }

  /**
   * A broadcast that a node accepts is the only transaction of its address: nothing else is
   * outstanding, and its nonce is the next one the chain will take.
   */
  lemma BroadcastIsAlone(c: Core, j: JobId)
    requires Inv(c) && Enabled(c, NodeAccepts(j))
    ensures Alone(c, j)
  {
    OwnAccount(c, j);
  }

  lemma AcceptKeepsInv(c: Core, j: JobId)
    requires Inv(c) && Enabled(c, NodeAccepts(j))
    ensures Inv(Accept(c, j))
  {
    OwnAccount(c, j);
    BroadcastIsAlone(c, j);
    var ph := Broadcasting(PhaseOf(c, j).nonce, true);
    GotoKeepsLeases(c, j, ph);
    OnlyJobsAndPool(Goto(c, j, ph), Accept(c, j));
    OneAccount(c, Accept(c, j), j, LeaseOf(c, j));
  }

  lemma PreflightKeepsInv(c: Core, e: Event)
    requires Inv(c) && Preflight(e) && Enabled(c, e)
    ensures Inv(Resume(c, e))
  {
    hide Inv;
    var j, ph := e.job, PhaseOf(c, e.job);
    OwnAccount(c, j);
    if e.InsufficientFunds? {
      ShortKeepsInv(c, j, ph.balance, ph.balance + 1);
    } else if e.BalanceRead? {
      ShortKeepsInv(c, j, e.balance, c.floor);
      UnlessAbortedKeepsInv(c, j, ReadingNonce(e.balance));
    } else {
      ShortKeepsInv(c, j, ph.balance, e.gasCost);
      UnlessAbortedKeepsInv(c, j, Instructing(ph.nonce));
    }
  }

  lemma AdvanceKeepsInv(c: Core, e: Event)
    requires Inv(c) && Advances(e) && Enabled(c, e)
    ensures Inv(Resume(c, e))
  {
    hide Inv;
    if e.Caught? { CaughtKeepsInv(c, e.job); } else { HolderAdvances(c, e); }
  }

  lemma CaughtKeepsInv(c: Core, j: JobId)
    requires Inv(c) && PhaseOf(c, j).Throwing?
    ensures Inv(Goto(c, j, Ended))
  {
    GotoKeepsLeases(c, j, Ended);
    IdleJobMoves(c, j, Ended);
  }

  lemma HolderAdvances(c: Core, e: Event)
    requires Inv(c) && Advances(e) && !e.Caught? && Enabled(c, e)
    ensures Inv(Resume(c, e))
  {
    hide Inv;
    OwnAccount(c, e.job);
    HolderMoves(c, e.job, Resume(c, e).procs[e.job].phase);
  }

  lemma ReceiptKeepsInv(c: Core, j: JobId, success: bool)
    requires Inv(c) && Enabled(c, Receipt(j, success))
    ensures Inv(Resume(c, Receipt(j, success)))
  {
    hide Inv;
    OwnAccount(c, j);
    CloseKeepsInv(c, j, if success then AwaitingRespond else Ended);
  }

  lemma LastPhasesKeepInv(c: Core, e: Event)
    requires Inv(c) && Resumes(e) && !Preflight(e) && !Advances(e) && !Broadcasts(e) && Enabled(c, e)
    ensures Inv(Resume(c, e))
  {
    var j := e.job;
    if e.Receipt? {
      ReceiptKeepsInv(c, j, e.success);
    } else {
      if Holding(c.procs[j].phase) { OwnAccount(c, j); }
      if e.Attached? && e.matches {
        HolderMoves(c, j, Broadcasting(PhaseOf(c, j).nonce, false));
      } else {
        CloseKeepsInv(c, j, Ended);
      }
    }
  }

  lemma ResumeKeepsInv(c: Core, e: Event)
    requires Inv(c) && Resumes(e) && Enabled(c, e)
    ensures Inv(Resume(c, e))
  {
    if Preflight(e) { PreflightKeepsInv(c, e); }
    else if Advances(e) { AdvanceKeepsInv(c, e); }
    else if e.NodeAccepts? { AcceptKeepsInv(c, e.job); }
    else if Broadcasts(e) { GiveUpKeepsInv(c, e.job); }
    else { LastPhasesKeepInv(c, e); }
  }

  // ------------------------------------------------------------------ the other steps

  lemma EarlyKeepsInv(c: Core, j: JobId, ph: Phase)
    requires Inv(c) && j in c.procs && Early(c.procs[j].phase) && Early(ph)
    ensures Inv(Goto(c, j, ph))
  {
    GotoKeepsLeases(c, j, ph);
    IdleJobMoves(c, j, ph);
  }

  lemma PrepareKeepsInv(c: Core, e: Event)
    requires Inv(c) && Prepares(e) && Enabled(c, e)
    ensures Inv(Step(c, e))
  {
    if e.Start? {
      StartKeepsLeases(c, e.job);
      AccountsUntouched(c, Step(c, e));
    } else if e.Derived? {
      DerivedKeepsLeases(c, e.job);
      EarlyKeepsInv(c, e.job, Sweeping);
      AccountsUntouched(Goto(c, e.job, Sweeping), Step(c, e));
    } else if e.Throws? {
      ThrowKeepsInv(c, e.job);
    } else if e.RequestRefreshes? {
      RebalanceKeepsInv(c, e.at, e.balance, c.floor);
    } else {
      RefreshKeepsInv(c, e.job, e.balance);
    }
  }

  lemma ThrowKeepsInv(c: Core, j: JobId)
    requires Inv(c) && Enabled(c, Throws(j))
    ensures Inv(Step(c, Throws(j)))
  {
    if Holding(c.procs[j].phase) { OwnAccount(c, j); }
    CloseKeepsInv(c, j, Throwing(Unanticipated));
  }

  lemma RefreshKeepsInv(c: Core, j: JobId, balance: nat)
    requires Inv(c) && PhaseOf(c, j).Refreshing?
    ensures Inv(Refresh(c, j, balance))
  {
    RebalanceThenMove(c, PhaseOf(c, j).at, balance, j, Refresh(c, j, balance).procs[j].phase);
  }

  lemma RebalanceThenMove(c: Core, at: Place, balance: nat, j: JobId, ph: Phase)
    requires Inv(c) && j in c.procs && Early(c.procs[j].phase) && Early(ph)
    ensures Inv(Goto(Rebalanced(c, at, balance, c.floor), j, ph))
  {
    RebalanceKeepsInv(c, at, balance, c.floor);
    EarlyKeepsInv(Rebalanced(c, at, balance, c.floor), j, ph);
  }

  lemma AskedKeepsAccounts(c: Core, j: JobId)
    requires Inv(c) && j in c.procs && Early(c.procs[j].phase)
    ensures Accounts(Asked(c, j))
  {
    NotLessee(c, j);
    AccountsUntouched(c, Asked(c, j));
  }

  lemma AskLeaseKeepsInv(c: Core, j: JobId)
    requires Inv(c) && j in c.procs && Early(c.procs[j].phase)
    ensures Inv(AskLease(c, j))
  {
    if c.procs[j].aborted {
      CloseKeepsInv(c, j, Throwing(ShuttingDown));
    } else {
      AskLeaseKeepsLeases(c, j);
      AskedKeepsAccounts(c, j);
      AskingOpensTicket(c, j);
      DecisionKeepsAccounts(c, j);
    }
  }

  lemma DecisionKeepsAccounts(c: Core, j: JobId)
    requires j in c.procs && !c.procs[j].aborted
    requires LeasesBut(Asked(c, j), {c.pool.next}) && Accounts(Asked(c, j))
    ensures Accounts(AskLease(c, j))
  {
    var d := Asked(c, j);
    match Available(c.pool)
    case Some(at) => GrantKeepsAccounts(d, at, c.pool.next);
    case None => SameWorkersSameAccounts(d, AskLease(c, j));
  }

  lemma SameWorkersSameAccounts(c: Core, d: Core)
    requires Accounts(c) && d.chain == c.chain && d.pool.workers == c.pool.workers
    requires d.procs == c.procs && d.callers == c.callers
    ensures Accounts(d)
  {
    forall i | 0 <= i < |d.chain| ensures AccountOk(d, i) {
      assert AccountOk(c, i);
      forall k | LeasedBy(d, i, k) ensures HolderOk(d.procs[k].phase, k, d.chain[i]) {
        assert LeasedBy(c, i, k);
      }
    }
  }

  lemma SettleLeaseKeepsInv(c: Core, j: JobId)
    requires Inv(c) && Enabled(c, LeaseSettles(j))
    ensures Inv(SettleLease(c, j))
  {
    SettleLeaseKeepsLeases(c, j);
    assert ProcOk(c, j);
    match c.pool.settled[c.procs[j].ticket.value]
    case Granted(at) =>
      var d := SettleLease(c, j);
      forall i | 0 <= i < |d.chain| ensures AccountOk(d, i) {
        assert AccountOk(c, i);
        forall k | LeasedBy(d, i, k) ensures HolderOk(d.procs[k].phase, k, d.chain[i]) {
          assert LeasedBy(c, i, k);
        }
      }
    case Refused(reason) => CloseKeepsInv(c, j, Throwing(NoWorker(reason)));
    case Abandoned => CloseKeepsInv(c, j, Throwing(Unanticipated));
  }

  lemma AskKeepsInv(c: Core, e: Event)
    requires Inv(c) && Asks(e) && Enabled(c, e)
    ensures Inv(Step(c, e))
  {
    if e.AsksLease? {
      AskLeaseKeepsInv(c, e.job);
    } else if e.LeaseSettles? {
      SettleLeaseKeepsInv(c, e.job);
    } else {
      AskKeepsLeases(c, e);
      AccountsUntouched(c, Step(c, e));
    }
  }

  /** Mining or dropping a transaction leaves its address with nothing outstanding. */
  lemma ChainMovesKeepInv(c: Core, e: Event)
    requires Inv(c) && (e.Mine? || e.Drop?) && Enabled(c, e)
    ensures Inv(Step(c, e))
    ensures Step(c, e).chain[e.at].outstanding == {}
  {
    var d := Step(c, e);
    OnlyJobsAndPool(c, d);
    assert AccountOk(c, e.at);
    forall i | 0 <= i < |d.chain| ensures AccountOk(d, i) {
      assert AccountOk(c, i);
      forall k | LeasedBy(d, i, k) ensures HolderOk(d.procs[k].phase, k, d.chain[i]) {
        assert LeasedBy(c, i, k);
      }
    }
  }

  lemma EndSweepKeepsInv(c: Core, k: SweepId, failed: bool)
    requires Inv(c)
    ensures Inv(EndSweep(c, k, failed))
  {
    EndSweepKeepsLeases(c, k, failed);
    var d := c.(sweeps := c.sweeps - {k});
    OnlyJobsAndPool(c, d);
    AccountsUntouched(c, d);
    if k.OfJob? && PhaseOf(c, k.job).Sweeping? {
      if failed { CloseKeepsInv(d, k.job, Throwing(Unanticipated)); }
      else { EarlyKeepsInv(d, k.job, Refreshing(NextShort(c.pool.workers, 0))); }
    }
  }

  // ------------------------------------------------------------------ clearing a quarantine

  /** The verdict returns a quarantined worker to service. */
  ghost predicate Clears(c: Core, e: Event) {
    && e.Verdict? && Enabled(c, e)
    && var s := c.sweeps[e.sweep];
       && s.pending.value <= s.latest.value
       && s.todo[0] < |c.pool.workers| && c.pool.workers[s.todo[0]].pendingNonce.Some?
  }

  /**
   * A clear is timely when the comparison it is based on still holds on the chain at the
   * moment it is acted on: no more transactions pending than mined.
   */
  ghost predicate Timely(c: Core, e: Event) {
    Clears(c, e) ==> var a := c.chain[c.sweeps[e.sweep].todo[0]]; Pending(a) <= Latest(a)
  }

  lemma TimelyVerdictKeepsInv(c: Core, e: Event)
    requires Inv(c) && e.Verdict? && Enabled(c, e) && Timely(c, e)
    ensures Inv(Step(c, e))
  {
    var at := c.sweeps[e.sweep].todo[0];
    var p := Judged(c, e.sweep).pool;
    SweepKeepsLeases(c, e);
    assert AccountOk(c, at);
    if Clears(c, e) {
      assert c.chain[at].outstanding == {};
      var d := Step(c, e);
      forall i | 0 <= i < |d.chain| ensures AccountOk(d, i) {
        assert AccountOk(c, i);
        forall k | LeasedBy(d, i, k) ensures HolderOk(d.procs[k].phase, k, d.chain[i]) {
          assert LeasedBy(c, i, k);
        }
      }
    } else {
      AccountsUntouched(c, Step(c, e));
    }
  }

  lemma StepKeepsInv(c: Core, e: Event)
    requires Inv(c) && Enabled(c, e) && Timely(c, e)
    ensures Inv(Step(c, e))
  {
    if Resumes(e) { ResumeKeepsInv(c, e); }
    else if Prepares(e) { PrepareKeepsInv(c, e); }
    else if Asks(e) { AskKeepsInv(c, e); }
    else if e.Verdict? { TimelyVerdictKeepsInv(c, e); }
    else if Sweeps(e) { EndSweepKeepsInv(c, e.sweep, e.SweepFails?); }
    else if e.Mine? || e.Drop? { ChainMovesKeepInv(c, e); }
    else { OnlyJobsAndPool(c, Step(c, e)); AccountsUntouched(c, Step(c, e)); }
  }

  // ------------------------------------------------------------------ nonce safety

  /** Transaction `x` of address `i` is accounted for: by its job's lease, or by the quarantine at its nonce. */
  ghost predicate OwnedTx(c: Core, i: Place, x: Tx)
    requires i < |c.pool.workers|
  {
    || (LeasedBy(c, i, x.job) && Sent(c.procs[x.job].phase) && NonceOf(c.procs[x.job].phase) == x.nonce)
    || c.pool.workers[i].pendingNonce == Some(x.nonce)
  }

  /** At most one unresolved transaction an address, at the next nonce of its account, and owned. */
  ghost predicate NonceSafe(c: Core) {
    forall i | 0 <= i < |c.chain| && i < |c.pool.workers| ::
      && (forall x :: x in c.chain[i].outstanding ==> x.nonce == Latest(c.chain[i]) && OwnedTx(c, i, x))
      && (forall x, y :: x in c.chain[i].outstanding && y in c.chain[i].outstanding ==> x == y)
  }

  lemma InvIsNonceSafe(c: Core)
    requires Inv(c)
    ensures NonceSafe(c)
  {
    forall i, x | 0 <= i < |c.chain| && x in c.chain[i].outstanding ensures OwnedTx(c, i, x) {
      assert AccountOk(c, i);
      if c.pool.workers[i].pendingNonce.None? {
        var t := c.pool.workers[i].lessee.value;
        assert Entitled(c, i, t);
        assert LeasedBy(c, i, c.callers[t]);
      }
    }
    forall i | 0 <= i < |c.chain|
      ensures (forall x :: x in c.chain[i].outstanding ==> x.nonce == Latest(c.chain[i]))
      ensures forall x, y :: x in c.chain[i].outstanding && y in c.chain[i].outstanding ==> x == y
    {
      assert AccountOk(c, i);
    }
  }

  /** A clear that is not timely loses the transaction: nobody owns it any more. */
  lemma UntimelyClearIsUnsafe(c: Core, e: Event)
    requires Inv(c) && Enabled(c, e) && !Timely(c, e)
    ensures !NonceSafe(Step(c, e))
  {
    var at := c.sweeps[e.sweep].todo[0];
    var a := c.chain[at];
    assert AccountOk(c, at);
    assert a.outstanding != {};
    var x :| x in a.outstanding;
    var d := Step(c, e);
    assert !d.pool.workers[at].busy && d.pool.workers[at].pendingNonce.None?;
    assert !OwnedTx(d, at, x);
    assert x in d.chain[at].outstanding;
  }
}
