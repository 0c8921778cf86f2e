/**
 * The pool as the jobs use it: every step of the protocol is a sequence of calls of the pool, so
 * what holds of every sequence of calls holds of every run of the protocol.
 */
module PoolRuns {
  import opened PoolModel
  import opened JobProtocol
  import LeaseSafety
  import F = PoolFairness

  // ------------------------------------------------------------------ the calls a step makes

  function ReleaseCalls(c: Core, j: JobId): seq<Op>
    requires j in c.procs
  {
    if c.procs[j].worker.Some? && !c.procs[j].released then [Give(c.procs[j].worker.value)] else []
  }

  function ShortCalls(c: Core, j: JobId, balance: nat, minimum: nat): seq<Op>
    requires j in c.procs
  {
    [Rebalance(LeaseOf(c, j), balance, minimum)] + ReleaseCalls(c, j)
  }

  function ResumeCalls(c: Core, e: Event): seq<Op>
    requires Resumes(e) && Enabled(c, e)
  {
    var ph, quits := PhaseOf(c, e.job), c.procs[e.job].aborted;
    match e
    case BalanceRead(j, balance) =>
      if balance < c.floor then ShortCalls(c, j, balance, c.floor) else if quits then ReleaseCalls(c, j) else []
    case InsufficientFunds(j) => ShortCalls(c, j, ph.balance, ph.balance + 1)
    case Estimated(j, gasCost) =>
      if ph.balance < gasCost then ShortCalls(c, j, ph.balance, gasCost) else if quits then ReleaseCalls(c, j) else []
    case Attached(j, matches) => if matches then [] else ReleaseCalls(c, j)
    case SendThrows(j) => [Withhold(LeaseOf(c, j), ph.nonce)] + ReleaseCalls(c, j)
    case ConfirmTimesOut(j) => [Withhold(LeaseOf(c, j), ph.nonce)] + ReleaseCalls(c, j)
    case SignatureTimesOut(j) => ReleaseCalls(c, j)
    case Receipt(j, _) => ReleaseCalls(c, j)
    case Responded(j, _) => ReleaseCalls(c, j)
    case RespondTimesOut(j) => ReleaseCalls(c, j)
    case _ => []
  }

  function Calls(c: Core, e: Event): seq<Op>
    requires Enabled(c, e)
  {
    match e
    case Throws(j) => ReleaseCalls(c, j)
    case SweepFails(k) => if k.OfJob? && PhaseOf(c, k.job).Sweeping? then ReleaseCalls(c, k.job) else []
    case Verdict(k) => [Judge(c.sweeps[k].todo[0], c.sweeps[k].pending.value > c.sweeps[k].latest.value)]
    case RequestRefreshes(at, balance) => [Rebalance(at, balance, c.floor)]
    case Refreshed(j, balance) => [Rebalance(PhaseOf(c, j).at, balance, c.floor)]
    case AsksLease(j) => if c.procs[j].aborted then ReleaseCalls(c, j) else [Arrive]
    case LeaseTimer(t) => [Timer(t)]
    case LeaseSettles(j) => if c.pool.settled[c.procs[j].ticket.value].Granted? then [] else ReleaseCalls(c, j)
    case AbortAll => [RejectAll]
    case _ => if Resumes(e) then ResumeCalls(c, e) else []
  }

  // ------------------------------------------------------------------ a step is its calls

  /** The pool `q` is what the calls make of `p`. */
  ghost predicate MakesOf(p: Pool, ops: seq<Op>, q: Pool) { F.Possible(p, ops) && F.After(p, ops) == q }

  lemma NoCalls(p: Pool)
    ensures MakesOf(p, [], p)
  {
  }

  lemma OneCall(p: Pool, op: Op)
    requires Allowed(p, op)
    ensures MakesOf(p, [op], Apply(p, op))
  {
    assert [op][1..] == [];
    assert F.After(Apply(p, op), []) == Apply(p, op);
  }

  lemma OneMoreCall(p: Pool, op: Op, ops: seq<Op>, q: Pool)
    requires Allowed(p, op) && MakesOf(Apply(p, op), ops, q)
    ensures MakesOf(p, [op] + ops, q)
  {
    assert ([op] + ops)[1..] == ops;
  }

  lemma ReleaseMakes(c: Core, j: JobId, ph: Phase)
    requires j in c.procs
    ensures MakesOf(c.pool, ReleaseCalls(c, j), Close(c, j, ph).pool)
  {
    hide MakesOf, Release;
    if c.procs[j].worker.Some? && !c.procs[j].released { OneCall(c.pool, Give(c.procs[j].worker.value)); }
    else { NoCalls(c.pool); }
  }

  lemma ShortMakes(c: Core, j: JobId, balance: nat, minimum: nat)
    requires j in c.procs
    ensures MakesOf(c.pool, ShortCalls(c, j, balance, minimum), Short(c, j, balance, minimum).pool)
  {
    hide MakesOf, Close;
    ReleaseMakes(Rebalanced(c, LeaseOf(c, j), balance, minimum), j, Ended);
    OneMoreCall(c.pool, Rebalance(LeaseOf(c, j), balance, minimum), ReleaseCalls(c, j),
      Short(c, j, balance, minimum).pool);
  }

  lemma GiveUpMakes(c: Core, j: JobId)
    requires KnowsNonce(PhaseOf(c, j))
    ensures MakesOf(c.pool, [Withhold(LeaseOf(c, j), NonceOf(PhaseOf(c, j)))] + ReleaseCalls(c, j), GiveUp(c, j).pool)
  {
    hide MakesOf, Close, Quarantine;
    var op := Withhold(LeaseOf(c, j), NonceOf(PhaseOf(c, j)));
    var mid := c.(pool := Apply(c.pool, op));
    ReleaseMakes(mid, j, Ended);
    OneMoreCall(c.pool, op, ReleaseCalls(c, j), GiveUp(c, j).pool);
  }

  lemma PreflightMakes(c: Core, e: Event)
    requires LeaseSafety.Preflight(e) && Enabled(c, e)
    ensures MakesOf(c.pool, ResumeCalls(c, e), Resume(c, e).pool)
  {
    hide MakesOf, Close, Short, ShortCalls, ReleaseCalls;
    var j, ph := e.job, PhaseOf(c, e.job);
    NoCalls(c.pool);
    ReleaseMakes(c, j, Throwing(ShuttingDown));
    if e.BalanceRead? { ShortMakes(c, j, e.balance, c.floor); }
    else { ShortMakes(c, j, ph.balance, if e.Estimated? then e.gasCost else ph.balance + 1); }
  }

  lemma LaterMakes(c: Core, e: Event)
    requires Resumes(e) && !LeaseSafety.Preflight(e) && Enabled(c, e)
    ensures MakesOf(c.pool, ResumeCalls(c, e), Resume(c, e).pool)
  {
    hide MakesOf, Close, GiveUp, ReleaseCalls;
    NoCalls(c.pool);
    if e.SendThrows? || e.ConfirmTimesOut? { GiveUpMakes(c, e.job); }
    else { ReleaseMakes(c, e.job, if e.Receipt? && e.success then AwaitingRespond else Ended); }
  }

  lemma SettlingMakes(c: Core, j: JobId)
    requires Enabled(c, LeaseSettles(j))
    ensures MakesOf(c.pool, Calls(c, LeaseSettles(j)), SettleLease(c, j).pool)
  {
    hide MakesOf, Close, ReleaseCalls;
    match c.pool.settled[c.procs[j].ticket.value]
    case Granted(_) => NoCalls(c.pool);
    case Refused(reason) => ReleaseMakes(c, j, Throwing(NoWorker(reason)));
    case Abandoned => ReleaseMakes(c, j, Throwing(Unanticipated));
  }

  lemma AskMakes(c: Core, e: Event)
    requires LeaseSafety.Asks(e) && Enabled(c, e)
    ensures MakesOf(c.pool, Calls(c, e), Step(c, e).pool)
  {
    hide MakesOf, Close, ReleaseCalls, AcquireWithin, Timeout, RejectWaiters;
    if e.LeaseSettles? { SettlingMakes(c, e.job); }
    else if e.AsksLease? && c.procs[e.job].aborted { ReleaseMakes(c, e.job, Throwing(ShuttingDown)); }
    else { OneCall(c.pool, if e.AsksLease? then Arrive else if e.LeaseTimer? then Timer(e.t) else RejectAll); }
  }

  lemma OtherMakes(c: Core, e: Event)
    requires Enabled(c, e) && !Resumes(e) && !LeaseSafety.Asks(e)
    ensures MakesOf(c.pool, Calls(c, e), Step(c, e).pool)
  {
    hide MakesOf, Close, ReleaseCalls, Reconcile, SetBalance;
    NoCalls(c.pool);
    if e.Throws? { ReleaseMakes(c, e.job, Throwing(Unanticipated)); }
    else if e.SweepFails? && e.sweep.OfJob? && PhaseOf(c, e.sweep.job).Sweeping? {
      ReleaseMakes(c.(sweeps := c.sweeps - {e.sweep}), e.sweep.job, Throwing(Unanticipated));
      SameReleaseCalls(c, e.sweep);
    }
    else if e.Verdict? || e.RequestRefreshes? || e.Refreshed? { OneCall(c.pool, Calls(c, e)[0]); }
  }

  lemma SameReleaseCalls(c: Core, k: SweepId)
    requires k.OfJob? && k.job in c.procs
    ensures ReleaseCalls(c.(sweeps := c.sweeps - {k}), k.job) == ReleaseCalls(c, k.job)
  {
  }

  /** Projection of a step: the pool moves by the calls the step makes, and by nothing else. */
  lemma StepMakes(c: Core, e: Event)
    requires Enabled(c, e)
    ensures MakesOf(c.pool, Calls(c, e), Step(c, e).pool)
  {
    hide MakesOf;
    if LeaseSafety.Asks(e) { AskMakes(c, e); }
    else if !Resumes(e) { OtherMakes(c, e); }
    else if LeaseSafety.Preflight(e) { PreflightMakes(c, e); }
    else { LaterMakes(c, e); }
  }

  // ------------------------------------------------------------------ a run is its calls

  function AllCalls(c: Core, es: seq<Event>): seq<Op>
    requires Possible(c, es)
    decreases |es|
  {
    if es == [] then [] else Calls(c, es[0]) + AllCalls(Step(c, es[0]), es[1..])
  }

  lemma {:induction false} CallsJoin(p: Pool, a: seq<Op>, q: Pool, b: seq<Op>, r: Pool)
    requires MakesOf(p, a, q) && MakesOf(q, b, r)
    ensures MakesOf(p, a + b, r)
    decreases |a|
  {
    if a == [] {
      assert a + b == b;
    } else {
      assert (a + b)[0] == a[0] && (a + b)[1..] == a[1..] + b;
      CallsJoin(Apply(p, a[0]), a[1..], q, b, r);
    }
  }

  /** Projection of a run. */
  lemma {:induction false} RunMakes(c: Core, es: seq<Event>)
    requires Possible(c, es)
    ensures MakesOf(c.pool, AllCalls(c, es), After(c, es).pool)
    decreases |es|
  {
    hide MakesOf, Step, Enabled, Calls;
    if es == [] {
      NoCalls(c.pool);
    } else {
      var d := Step(c, es[0]);
      StepMakes(c, es[0]);
      RunMakes(d, es[1..]);
      CallsJoin(c.pool, Calls(c, es[0]), d.pool, AllCalls(d, es[1..]), After(c, es).pool);
    }
  }

  // ------------------------------------------------------------------ waiting and overtaking

  /** The step makes an idle address eligible while somebody queues for one. */
  ghost predicate Wakes(c: Core, e: Event)
    requires Enabled(c, e)
  {
    (e.Verdict? || e.Refreshed? || e.RequestRefreshes?) && F.WakesSilently(c.pool, Calls(c, e)[0])
  }

  /** A call that makes nobody eligible without a hand-off, whatever the pool. */
  predicate Loud(op: Op) { !op.Judge? && (op.Rebalance? ==> op.balance < op.minimum) }

  lemma {:induction false} LoudCalls(p: Pool, ops: seq<Op>, q: Pool)
    requires WellFormed(p) && F.Quiet(p) && MakesOf(p, ops, q) && forall i :: 0 <= i < |ops| ==> Loud(ops[i])
    ensures F.Quiet(q)
    decreases |ops|
  {
    hide WellFormed, F.Quiet, Apply;
    if ops != [] {
      F.QuietStep(p, ops[0]);
      ApplyKeeps(p, ops[0]);
      LoudCalls(Apply(p, ops[0]), ops[1..], q);
    }
  }

  lemma OtherCallsAreLoud(c: Core, e: Event)
    requires Enabled(c, e) && !e.Verdict? && !e.Refreshed? && !e.RequestRefreshes?
    ensures forall i :: 0 <= i < |Calls(c, e)| ==> Loud(Calls(c, e)[i])
  {
  }

  /** Exactly when a step of the jobs leaves nobody waiting beside an eligible address. */
  lemma StepQuiet(c: Core, e: Event)
    requires WellFormed(c.pool) && Enabled(c, e) && F.Quiet(c.pool)
    ensures F.Quiet(Step(c, e).pool) <==> !Wakes(c, e)
  {
    StepMakes(c, e);
    if e.Verdict? || e.Refreshed? || e.RequestRefreshes? {
      SingleCall(c, e);
    } else {
      OtherCallsAreLoud(c, e);
      hide WellFormed, F.Quiet, Step, Enabled, Calls;
      LoudCalls(c.pool, Calls(c, e), Step(c, e).pool);
    }
  }

  lemma SingleCall(c: Core, e: Event)
    requires WellFormed(c.pool) && Enabled(c, e) && F.Quiet(c.pool)
    requires e.Verdict? || e.Refreshed? || e.RequestRefreshes?
    ensures F.Quiet(Step(c, e).pool) <==> !Wakes(c, e)
  {
    hide WellFormed, F.Quiet, F.WakesSilently, SetBalance, Reconcile, Increasing;
    var op := Calls(c, e)[0];
    assert Step(c, e).pool == Apply(c.pool, op);
    F.QuietStep(c.pool, op);
  }

  ghost predicate AlwaysQuiet(c: Core, es: seq<Event>)
    requires Possible(c, es)
    decreases |es|
  {
    F.Quiet(c.pool) && (es == [] || AlwaysQuiet(Step(c, es[0]), es[1..]))
  }

  ghost predicate NeverWakes(c: Core, es: seq<Event>)
    requires Possible(c, es)
    decreases |es|
  {
    es == [] || (!Wakes(c, es[0]) && NeverWakes(Step(c, es[0]), es[1..]))
  }

  /**
   * Over every run of the jobs: nobody ever waits beside an eligible address if and only if no sweep and no refresh
   * makes one eligible beside a queue.
   */
  lemma {:induction false} QuietExactlyWhenNeverWoken(c: Core, es: seq<Event>)
    requires LeaseSafety.Leases(c) && F.Quiet(c.pool) && Possible(c, es)
    ensures AlwaysQuiet(c, es) <==> NeverWakes(c, es)
    decreases |es|
  {
    hide LeaseSafety.Leases, F.Quiet, Step, Enabled, Wakes, WellFormed;
    if es != [] {
      LeaseSafety.PoolIsWellFormed(c);
      StepQuiet(c, es[0]);
      LeaseSafety.StepKeepsLeases(c, es[0]);
      if !Wakes(c, es[0]) {
        QuietExactlyWhenNeverWoken(Step(c, es[0]), es[1..]);
      } else {
        NotQuietFrom(Step(c, es[0]), es[1..]);
      }
    }
  }

  lemma NotQuietFrom(c: Core, es: seq<Event>)
    requires Possible(c, es) && !F.Quiet(c.pool)
    ensures !AlwaysQuiet(c, es)
  {
  }

  // ------------------------------------------------------------------ overtaking

  /** A job asks for an address, and gets one, while others queue. */
  ghost predicate Passes(c: Core, e: Event)
    requires Enabled(c, e)
  {
    e.AsksLease? && !c.procs[e.job].aborted && c.pool.waiters != [] && Available(c.pool).Some?
  }

  ghost predicate AlwaysOrdered(c: Core, es: seq<Event>)
    requires Possible(c, es)
    decreases |es|
  {
    F.Ordered(c.pool) && (es == [] || AlwaysOrdered(Step(c, es[0]), es[1..]))
  }

  ghost predicate NeverPasses(c: Core, es: seq<Event>)
    requires Possible(c, es)
    decreases |es|
  {
    es == [] || (!Passes(c, es[0]) && NeverPasses(Step(c, es[0]), es[1..]))
  }

  lemma {:induction false} OtherCallsKeepOrder(p: Pool, ops: seq<Op>, q: Pool)
    requires WellFormed(p) && F.Ordered(p) && MakesOf(p, ops, q) && forall i :: 0 <= i < |ops| ==> !ops[i].Arrive?
    ensures F.Ordered(q)
    decreases |ops|
  {
    hide WellFormed, F.Ordered, Apply;
    if ops != [] {
      F.OrderedStep(p, ops[0]);
      ApplyKeeps(p, ops[0]);
      OtherCallsKeepOrder(Apply(p, ops[0]), ops[1..], q);
    }
  }

  lemma OnlyAskingArrives(c: Core, e: Event)
    requires Enabled(c, e)
    ensures if e.AsksLease? && !c.procs[e.job].aborted then Calls(c, e) == [Arrive]
      else forall i :: 0 <= i < |Calls(c, e)| ==> !Calls(c, e)[i].Arrive?
  {
  }

  /** Exactly when a step of the jobs lets one of them overtake another. */
  lemma StepOrdered(c: Core, e: Event)
    requires WellFormed(c.pool) && Enabled(c, e) && F.Ordered(c.pool)
    ensures F.Ordered(Step(c, e).pool) <==> !Passes(c, e)
  {
    StepMakes(c, e);
    OnlyAskingArrives(c, e);
    if e.AsksLease? && !c.procs[e.job].aborted {
      AskOrdered(c, e.job);
    } else {
      hide WellFormed, F.Ordered, Step, Enabled, Calls;
      OtherCallsKeepOrder(c.pool, Calls(c, e), Step(c, e).pool);
    }
  }

  lemma AskOrdered(c: Core, j: JobId)
    requires WellFormed(c.pool) && Enabled(c, AsksLease(j)) && F.Ordered(c.pool) && !c.procs[j].aborted
    ensures F.Ordered(AskLease(c, j).pool) <==> !Passes(c, AsksLease(j))
  {
    hide WellFormed, F.Ordered, AcquireWithin;
    assert AskLease(c, j).pool == Apply(c.pool, Arrive);
    F.OrderedStep(c.pool, Arrive);
  }

  /**
   * Over every run of the jobs: nobody is ever overtaken if and only if no job asks for an address, and gets one,
   * while others queue.
   */
  lemma {:induction false} OrderedExactlyWhenNeverPassed(c: Core, es: seq<Event>)
    requires LeaseSafety.Leases(c) && F.Ordered(c.pool) && Possible(c, es)
    ensures AlwaysOrdered(c, es) <==> NeverPasses(c, es)
    decreases |es|
  {
    hide LeaseSafety.Leases, F.Ordered, Step, Enabled, Passes, WellFormed;
    if es != [] {
      LeaseSafety.PoolIsWellFormed(c);
      StepOrdered(c, es[0]);
      LeaseSafety.StepKeepsLeases(c, es[0]);
      if !Passes(c, es[0]) {
        OrderedExactlyWhenNeverPassed(Step(c, es[0]), es[1..]);
      } else {
        NotOrderedFrom(Step(c, es[0]), es[1..]);
      }
    }
  }

  lemma NotOrderedFrom(c: Core, es: seq<Event>)
    requires Possible(c, es) && !F.Ordered(c.pool)
    ensures !AlwaysOrdered(c, es)
  {
  }

  /** A run whose sweeps and refreshes wake nobody silently lets nobody overtake. */
  lemma {:induction false} QuietIsOrdered(c: Core, es: seq<Event>)
    requires Possible(c, es) && AlwaysQuiet(c, es)
    ensures NeverPasses(c, es)
    decreases |es|
  {
    hide Step, Enabled;
    if es != [] { QuietIsOrdered(Step(c, es[0]), es[1..]); }
  }

  lemma {:induction false} LastIsOrdered(c: Core, es: seq<Event>)
    requires Possible(c, es) && AlwaysOrdered(c, es)
    ensures Increasing(After(c, es).pool.grants)
    decreases |es|
  {
    hide Step, Enabled;
    if es != [] { LastIsOrdered(Step(c, es[0]), es[1..]); }
  }
}
