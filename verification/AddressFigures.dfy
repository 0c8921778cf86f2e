/**
 * What the list of workers shows of an address: the nonce it is withheld for, the balance last read for it, and how
 * often it was leased. Each is what the steps of the jobs make it, and no other step touches it.
 */
module AddressFigures {
  import opened Options
  import opened PoolModel
  import opened JobProtocol
  import F = PoolFairness
  import PoolRuns
  import opened ShortAddresses

  // ------------------------------------------------------------------ one call of the pool

  /** The figures of the worker at `at` that a call leaves behind. */
  predicate Leaves(p: Pool, op: Op, q: Pool, at: Place)
    requires at < |p.workers|
  {
    var w := p.workers[at];
    && |q.workers| == |p.workers|
    && q.workers[at].pendingNonce ==
       (if op.Withhold? && op.at == at then Some(op.nonce)
        else if op.Judge? && op.at == at && !op.hasOutstanding then None else w.pendingNonce)
    && q.workers[at].balanceWei == (if op.Rebalance? && op.at == at then op.balance else w.balanceWei)
  }

  lemma {:induction false} HandOffKeepsFigures(p: Pool)
    ensures |HandOff(p).workers| == |p.workers|
    ensures forall i :: 0 <= i < |p.workers| ==>
      HandOff(p).workers[i].pendingNonce == p.workers[i].pendingNonce
        && HandOff(p).workers[i].balanceWei == p.workers[i].balanceWei
    decreases |p.waiters|
  {
    if p.waiters != [] && Available(p).Some? {
      HandOffKeepsFigures(Lease(p.(waiters := p.waiters[1..]), Available(p).value, p.waiters[0]));
    }
  }

  lemma CallLeaves(p: Pool, op: Op, at: Place)
    requires at < |p.workers|
    ensures Leaves(p, op, Apply(p, op), at)
  {
    if op.Give? { HandOffKeepsFigures(Free(p, op.at)); }
  }

  /** The calls that say nothing of an address: leases, hand-offs and the queue. */
  predicate SaysNothing(op: Op) { op.Give? || op.Arrive? || op.Timer? || op.RejectAll? }

  lemma SilentLeaves(p: Pool, ops: seq<Op>, q: Pool, at: Place)
    requires at < |p.workers| && PoolRuns.MakesOf(p, ops, q) && |ops| <= 1
    requires forall op :: op in ops ==> SaysNothing(op)
    ensures |q.workers| == |p.workers| && q.workers[at].pendingNonce == p.workers[at].pendingNonce
    ensures q.workers[at].balanceWei == p.workers[at].balanceWei
  {
    if ops != [] {
      CallLeaves(p, ops[0], at);
      assert ops[0] in ops && ops[1..] == [];
      hide Apply;
      assert F.After(Apply(p, ops[0]), []) == Apply(p, ops[0]);
    }
  }

  /** A call, and then at most one that says nothing. */
  lemma CallsLeave(p: Pool, ops: seq<Op>, q: Pool, at: Place)
    requires at < |p.workers| && PoolRuns.MakesOf(p, ops, q)
    requires 1 <= |ops| <= 2 && (|ops| == 2 ==> SaysNothing(ops[1]))
    ensures Leaves(p, ops[0], q, at)
  {
    hide Apply;
    var mid := Apply(p, ops[0]);
    CallLeaves(p, ops[0], at);
    assert PoolRuns.MakesOf(mid, ops[1..], q);
    SilentLeaves(mid, ops[1..], q, at);
  }

  // ------------------------------------------------------------------ one step of the jobs

  /** The step ends the job that holds the address at `at` with its broadcast unsettled. */
  predicate LosesSight(c: Core, e: Event, at: Place)
    requires Enabled(c, e)
  {
    (e.SendThrows? || e.ConfirmTimesOut?) && LeaseOf(c, e.job) == at
  }

  /** The step is a sweep's verdict on the address at `at`, and its two counts leave nothing outstanding. */
  predicate Clears(c: Core, e: Event, at: Place)
    requires Enabled(c, e)
  {
    e.Verdict? && c.sweeps[e.sweep].todo[0] == at && c.sweeps[e.sweep].pending.value <= c.sweeps[e.sweep].latest.value
  }

  /** The step reads a balance that the pool is told: a job's reading only when it fails the job. */
  predicate TellsBalance(c: Core, e: Event, at: Place)
    requires Enabled(c, e)
  {
    Rereads(c, e, at) || FailsShort(c, e, at)
  }

  /** The balance the pool is told in such a step: what was read in it, or what the job read before. */
  function BalanceTold(c: Core, e: Event): nat
    requires Enabled(c, e)
    requires e.Refreshed? || e.RequestRefreshes? || e.BalanceRead? || e.Estimated? || e.InsufficientFunds?
  {
    if e.Estimated? || e.InsufficientFunds? then PhaseOf(c, e.job).balance else e.balance
  }

  /** The call of a step that bears on the figures, if it makes one. */
  function Telling(c: Core, e: Event): Option<Op>
    requires Enabled(c, e)
  {
    match e
    case Verdict(k) => Some(Judge(c.sweeps[k].todo[0], c.sweeps[k].pending.value > c.sweeps[k].latest.value))
    case RequestRefreshes(at, balance) => Some(Rebalance(at, balance, c.floor))
    case Refreshed(j, balance) => Some(Rebalance(PhaseOf(c, j).at, balance, c.floor))
    case BalanceRead(j, balance) => if balance < c.floor then Some(Rebalance(LeaseOf(c, j), balance, c.floor)) else None
    case InsufficientFunds(j) =>
      var balance := PhaseOf(c, j).balance;
      Some(Rebalance(LeaseOf(c, j), balance, balance + 1))
    case Estimated(j, gasCost) =>
      var balance := PhaseOf(c, j).balance;
      if balance < gasCost then Some(Rebalance(LeaseOf(c, j), balance, gasCost)) else None
    case SendThrows(j) => Some(Withhold(LeaseOf(c, j), PhaseOf(c, j).nonce))
    case ConfirmTimesOut(j) => Some(Withhold(LeaseOf(c, j), PhaseOf(c, j).nonce))
    case _ => None
  }

  lemma GivesAtMost(c: Core, j: JobId)
    requires j in c.procs
    ensures |PoolRuns.ReleaseCalls(c, j)| <= 1 && forall op :: op in PoolRuns.ReleaseCalls(c, j) ==> SaysNothing(op)
  {
  }

  lemma CallsAreTelling(c: Core, e: Event)
    requires Enabled(c, e)
    ensures Telling(c, e).Some? ==>
      var ops := PoolRuns.Calls(c, e);
      1 <= |ops| <= 2 && ops[0] == Telling(c, e).value && (|ops| == 2 ==> SaysNothing(ops[1]))
    ensures Telling(c, e).None? ==>
      |PoolRuns.Calls(c, e)| <= 1 && forall op :: op in PoolRuns.Calls(c, e) ==> SaysNothing(op)
  {
    hide PoolRuns.ReleaseCalls;
    forall j | j in c.procs
      ensures |PoolRuns.ReleaseCalls(c, j)| <= 1 && forall op :: op in PoolRuns.ReleaseCalls(c, j) ==> SaysNothing(op)
    {
      GivesAtMost(c, j);
    }
  }

  lemma TellingLosses(c: Core, e: Event, at: Place)
    requires Enabled(c, e) && at < |c.pool.workers|
    ensures LosesSight(c, e, at)
      <==> Telling(c, e).Some? && Telling(c, e).value.Withhold? && Telling(c, e).value.at == at
    ensures LosesSight(c, e, at) ==>
      KnowsNonce(PhaseOf(c, e.job)) && Telling(c, e).value.nonce == PhaseOf(c, e.job).nonce
  {
  }

  lemma TellingClears(c: Core, e: Event, at: Place)
    requires Enabled(c, e) && at < |c.pool.workers|
    ensures Clears(c, e, at) <==> Telling(c, e).Some? && Telling(c, e).value.Judge? && Telling(c, e).value.at == at
                                  && !Telling(c, e).value.hasOutstanding
  {
  }

  lemma TellingBalances(c: Core, e: Event, at: Place)
    requires Enabled(c, e) && at < |c.pool.workers|
    ensures TellsBalance(c, e, at)
      <==> Telling(c, e).Some? && Telling(c, e).value.Rebalance? && Telling(c, e).value.at == at
    ensures TellsBalance(c, e, at) ==> Telling(c, e).value.balance == BalanceTold(c, e)
  {
  }

  /**
   * After any step an address is withheld for what it was withheld for before, except that the step in which its job
   * loses sight of a broadcast withholds it for that job's nonce, and a verdict with nothing outstanding gives it back.
   */
  lemma StepWithholds(c: Core, e: Event, at: Place)
    requires Enabled(c, e) && at < |c.pool.workers|
    ensures |Step(c, e).pool.workers| == |c.pool.workers|
    ensures Step(c, e).pool.workers[at].pendingNonce ==
      if LosesSight(c, e, at) then Some(NonceOf(PhaseOf(c, e.job)))
      else if Clears(c, e, at) then None else c.pool.workers[at].pendingNonce
  {
    StepFigures(c, e, at);
    TellingLosses(c, e, at);
    TellingClears(c, e, at);
    hide Step, Enabled, PhaseOf, LosesSight, Clears, Telling;
  }

  lemma StepFigures(c: Core, e: Event, at: Place)
    requires Enabled(c, e) && at < |c.pool.workers|
    ensures |Step(c, e).pool.workers| == |c.pool.workers|
    ensures var w, v := c.pool.workers[at], Step(c, e).pool.workers[at];
      if Telling(c, e).Some? then Leaves(c.pool, Telling(c, e).value, Step(c, e).pool, at)
      else v.pendingNonce == w.pendingNonce && v.balanceWei == w.balanceWei
  {
    PoolRuns.StepMakes(c, e);
    CallsAreTelling(c, e);
    hide Step, Enabled, PoolRuns.Calls, PoolRuns.MakesOf, Telling, SaysNothing;
    if Telling(c, e).Some? {
      CallsLeave(c.pool, PoolRuns.Calls(c, e), Step(c, e).pool, at);
    } else {
      SilentLeaves(c.pool, PoolRuns.Calls(c, e), Step(c, e).pool, at);
    }
  }

  /** ... and it shows the balance it showed before, except after a step that tells the pool another one. */
  lemma StepShowsBalance(c: Core, e: Event, at: Place)
    requires Enabled(c, e) && at < |c.pool.workers|
    ensures |Step(c, e).pool.workers| == |c.pool.workers|
    ensures Step(c, e).pool.workers[at].balanceWei ==
      if TellsBalance(c, e, at) then BalanceTold(c, e) else c.pool.workers[at].balanceWei
  {
    StepFigures(c, e, at);
    TellingBalances(c, e, at);
    hide Step, Enabled, TellsBalance, Telling, BalanceTold;
  }

  // ------------------------------------------------------------------ how often an address was leased

  /** The tickets that were granted the address at `at`. */
  ghost function GrantedHere(p: Pool, at: Place): set<Ticket> { set t | t in p.settled && p.settled[t] == Granted(at) }

  ghost predicate LeasesCounted(p: Pool) {
    forall i :: 0 <= i < |p.workers| ==> p.workers[i].leases == |GrantedHere(p, i)|
  }

  lemma GrantIsAdded(p: Pool, at: Place, t: Ticket, i: Place)
    requires at < |p.workers| && t !in p.settled
    ensures GrantedHere(Lease(p, at, t), i) == if i == at then GrantedHere(p, i) + {t} else GrantedHere(p, i)
  {
  }

  lemma LeaseIsCounted(p: Pool, at: Place, t: Ticket)
    requires at < |p.workers| && t !in p.settled && LeasesCounted(p)
    ensures LeasesCounted(Lease(p, at, t))
  {
    forall i | 0 <= i < |p.workers| ensures Lease(p, at, t).workers[i].leases == |GrantedHere(Lease(p, at, t), i)| {
      GrantIsAdded(p, at, t, i);
      assert t !in GrantedHere(p, i);
      hide GrantedHere;
    }
  }

  lemma SameCounted(p: Pool, q: Pool)
    requires LeasesCounted(p) && |q.workers| == |p.workers|
    requires forall i :: 0 <= i < |p.workers| ==> q.workers[i].leases == p.workers[i].leases
    requires forall t, i ::
      (t in q.settled && q.settled[t] == Granted(i)) <==> (t in p.settled && p.settled[t] == Granted(i))
    ensures LeasesCounted(q)
  {
    forall i | 0 <= i < |q.workers| ensures q.workers[i].leases == |GrantedHere(q, i)| {
      assert GrantedHere(q, i) == GrantedHere(p, i);
    }
  }

  lemma {:induction false} HandOffIsCounted(p: Pool)
    requires WellFormed(p) && LeasesCounted(p)
    ensures LeasesCounted(HandOff(p))
    decreases |p.waiters|
  {
    if p.waiters != [] && Available(p).Some? {
      var at, t := Available(p).value, p.waiters[0];
      var popped := p.(waiters := p.waiters[1..]);
      assert t in p.waiters && t !in p.settled;
      PopKeeps(p);
      LeaseKeeps(popped, at, t);
      SameCounted(p, popped);
      LeaseIsCounted(popped, at, t);
      hide WellFormedBut, LeasesCounted;
      HandOffIsCounted(Lease(popped, at, t));
    }
  }

  lemma CallIsCounted(p: Pool, op: Op)
    requires WellFormed(p) && Allowed(p, op) && LeasesCounted(p)
    ensures LeasesCounted(Apply(p, op))
  {
    if op.Give? {
      FreeKeeps(p, op.at);
      SameCounted(p, Free(p, op.at));
      HandOffIsCounted(Free(p, op.at));
    } else if op.Arrive? && Available(p).Some? {
      var q := p.(next := p.next + 1);
      SameCounted(p, q);
      LeaseIsCounted(q, Available(p).value, p.next);
    } else {
      SameCounted(p, Apply(p, op));
    }
  }

  lemma {:induction false} CallsAreCounted(p: Pool, ops: seq<Op>)
    requires WellFormed(p) && F.Possible(p, ops) && LeasesCounted(p)
    ensures LeasesCounted(F.After(p, ops))
    decreases |ops|
  {
    hide WellFormedBut, LeasesCounted, Apply;
    if ops != [] {
      CallIsCounted(p, ops[0]);
      ApplyKeeps(p, ops[0]);
      CallsAreCounted(Apply(p, ops[0]), ops[1..]);
    }
  }

  /** In every run of the jobs an address shows as many leases as there were requests that were given it. */
  lemma LeasesAreCounted(c: Core, es: seq<Event>, at: Place)
    requires Init(c) && Possible(c, es) && at < |After(c, es).pool.workers|
    ensures After(c, es).pool.workers[at].leases == |GrantedHere(After(c, es).pool, at)|
  {
    assert WellFormed(c.pool);
    forall i | 0 <= i < |c.pool.workers| ensures c.pool.workers[i].leases == |GrantedHere(c.pool, i)| {
      assert GrantedHere(c.pool, i) == {};
    }
    hide WellFormed, Init, Possible, After;
    PoolRuns.RunMakes(c, es);
    CallsAreCounted(c.pool, PoolRuns.AllCalls(c, es));
  }
}
