/**
 * Nonce safety of whole runs, with the two transaction counts of a sweep read at different
 * times and acted on later. Within one quarantine a verdict is never stale; across a clear, a
 * new lease and a new quarantine it can be, and then the guarantee is lost.
 */
module QuarantineSafety {
  import opened PoolModel
  import opened JobProtocol
  import opened LeaseSafety
  import opened ChainSafety

  // ------------------------------------------------------------------ exactly when a run is safe

  ghost predicate AlwaysSafe(c: Core, es: seq<Event>)
    requires Possible(c, es)
    decreases |es|
  {
    NonceSafe(c) && (es == [] || AlwaysSafe(Step(c, es[0]), es[1..]))
  }

  ghost predicate AllTimely(c: Core, es: seq<Event>)
    requires Possible(c, es)
    decreases |es|
  {
    es == [] || (Timely(c, es[0]) && AllTimely(Step(c, es[0]), es[1..]))
  }

  lemma {:induction false} SafeExactlyWhenTimely(c: Core, es: seq<Event>)
    requires Inv(c) && Possible(c, es)
    ensures AlwaysSafe(c, es) <==> AllTimely(c, es)
    decreases |es|
  {
    InvIsNonceSafe(c);
    if es != [] {
      if Timely(c, es[0]) {
        StepKeepsInv(c, es[0]);
        SafeExactlyWhenTimely(Step(c, es[0]), es[1..]);
      } else {
        UntimelyClearIsUnsafe(c, es[0]);
      }
    }
  }

  lemma InitInv(c: Core)
    requires Init(c)
    ensures Inv(c)
  {
    InitLeases(c);
  }

  /**
   * Every run from a fresh service keeps every address nonce-safe in every state if and only
   * if each clear in it happens while the pending count does not exceed the mined count.
   */
  lemma NonceSafetyOfRuns(c: Core, es: seq<Event>)
    requires Init(c) && Possible(c, es)
    ensures AlwaysSafe(c, es) <==> AllTimely(c, es)
  {
    InitInv(c);
    SafeExactlyWhenTimely(c, es);
  }

  // ------------------------------------------------------------------ within one quarantine

  /** No quarantine was placed on the worker since the first of the two counts was read. */
  ghost predicate Fresh(c: Core, e: Event) {
    Clears(c, e) ==> var s := c.sweeps[e.sweep]; s.epoch == c.pool.workers[s.todo[0]].epoch
  }

  /** What the counts of a sweep still say, if its worker has been withheld ever since. */
  ghost predicate SweepOk(c: Core, s: Sweep) {
    s.todo != [] && s.todo[0] < |c.pool.workers| && s.todo[0] < |c.chain| ==>
      var w, a := c.pool.workers[s.todo[0]], c.chain[s.todo[0]];
      && s.epoch <= w.epoch
      && (s.epoch == w.epoch && w.pendingNonce.Some? && a.outstanding != {} ==>
            && (s.latest.Some? ==> s.latest.value == Latest(a))
            && (s.pending.Some? ==> s.pending.value > Latest(a)))
  }

  ghost predicate SweepsOk(c: Core) {
    forall k :: k in c.sweeps ==> SweepOk(c, c.sweeps[k])
  }

  /** From `c` to `d` a withheld address stays withheld in the same epoch, or its epoch moves on. */
  ghost predicate AgesWell(c: Core, d: Core, i: Place)
    requires i < |c.pool.workers| && i < |c.chain| && |d.pool.workers| == |c.pool.workers| && |d.chain| == |c.chain|
  {
    var w, v := c.pool.workers[i], d.pool.workers[i];
    && w.epoch <= v.epoch
    && (v.epoch == w.epoch && v.pendingNonce.Some? ==> w.pendingNonce.Some?)
    && (v.epoch == w.epoch && v.pendingNonce.Some? && d.chain[i].outstanding != {} ==> d.chain[i] == c.chain[i])
  }

  ghost predicate Ages(c: Core, d: Core) {
    && |d.pool.workers| == |c.pool.workers| == |d.chain| == |c.chain|
    && forall i :: 0 <= i < |c.chain| ==> AgesWell(c, d, i)
  }

  lemma {:induction false} HandOffKeepsQuarantines(p: Pool)
    ensures |HandOff(p).workers| == |p.workers|
    ensures forall i :: 0 <= i < |p.workers| ==>
      HandOff(p).workers[i].epoch == p.workers[i].epoch
        && HandOff(p).workers[i].pendingNonce == p.workers[i].pendingNonce
    decreases |p.waiters|
  {
    if p.waiters != [] && Available(p).Some? {
      HandOffKeepsQuarantines(Lease(p.(waiters := p.waiters[1..]), Available(p).value, p.waiters[0]));
    }
  }

  lemma CloseAges(c: Core, j: JobId, ph: Phase)
    requires |c.pool.workers| == |c.chain| && j in c.procs
    ensures Ages(c, Close(c, j, ph))
  {
    var pr := c.procs[j];
    if pr.worker.Some? && !pr.released {
      HandOffKeepsQuarantines(Free(c.pool, pr.worker.value));
    }
  }

  lemma ShortAges(c: Core, j: JobId, balance: nat, minimum: nat)
    requires |c.pool.workers| == |c.chain| && j in c.procs
    ensures Ages(c, Short(c, j, balance, minimum))
  {
    var mid := Rebalanced(c, LeaseOf(c, j), balance, minimum);
    CloseAges(mid, j, Ended);
    forall i | 0 <= i < |c.chain| ensures AgesWell(c, Short(c, j, balance, minimum), i) {
      assert AgesWell(mid, Short(c, j, balance, minimum), i);
    }
  }

  lemma GiveUpAges(c: Core, j: JobId)
    requires |c.pool.workers| == |c.chain| && KnowsNonce(PhaseOf(c, j))
    ensures Ages(c, GiveUp(c, j))
  {
    var mid := c.(pool := Quarantine(c.pool, LeaseOf(c, j), NonceOf(PhaseOf(c, j))));
    CloseAges(mid, j, Ended);
    forall i | 0 <= i < |c.chain| ensures AgesWell(c, GiveUp(c, j), i) {
      assert AgesWell(mid, GiveUp(c, j), i);
    }
  }

  lemma AcceptAges(c: Core, j: JobId)
    requires Inv(c) && Enabled(c, NodeAccepts(j))
    ensures Ages(c, Accept(c, j))
  {
    OwnAccount(c, j);
  }

  lemma ChainMovesAge(c: Core, e: Event)
    requires Inv(c) && Enabled(c, e) && (e.Mine? || e.Drop?)
    ensures Ages(c, Step(c, e))
  {
    ChainMovesKeepInv(c, e);
  }

  lemma ResumeAges(c: Core, e: Event)
    requires Inv(c) && Resumes(e) && Enabled(c, e)
    ensures Ages(c, Resume(c, e))
  {
    hide LeasesBut, AccountOk;
    var j := e.job;
    if Preflight(e) {
      PreflightAges(c, e);
    } else if e.NodeAccepts? {
      AcceptAges(c, j);
    } else if Broadcasts(e) {
      GiveUpAges(c, j);
    } else {
      CloseAges(c, j, if e.Receipt? && e.success then AwaitingRespond else Ended);
    }
  }

  lemma PreflightAges(c: Core, e: Event)
    requires Inv(c) && Preflight(e) && Enabled(c, e)
    ensures Ages(c, Resume(c, e))
  {
    var j, ph := e.job, PhaseOf(c, e.job);
    CloseAges(c, j, Throwing(ShuttingDown));
    if e.BalanceRead? { ShortAges(c, j, e.balance, c.floor); }
    else { ShortAges(c, j, ph.balance, if e.Estimated? then e.gasCost else ph.balance + 1); }
  }

  lemma SettlingAges(c: Core, j: JobId)
    requires |c.pool.workers| == |c.chain| && Enabled(c, LeaseSettles(j))
    ensures Ages(c, SettleLease(c, j))
  {
    hide Close;
    match c.pool.settled[c.procs[j].ticket.value]
    case Granted(_) =>
    case Refused(reason) => CloseAges(c, j, Throwing(NoWorker(reason)));
    case Abandoned => CloseAges(c, j, Throwing(Unanticipated));
  }

  lemma AskAges(c: Core, e: Event)
    requires Inv(c) && Asks(e) && Enabled(c, e)
    ensures Ages(c, Step(c, e))
  {
    hide LeasesBut, AccountOk;
    if e.AsksLease? { CloseAges(c, e.job, Throwing(ShuttingDown)); }
    else if e.LeaseSettles? { SettlingAges(c, e.job); }
  }

  lemma FailedSweepAges(c: Core, k: SweepId)
    requires |c.pool.workers| == |c.chain| && k.OfJob? && k.job in c.procs
    ensures Ages(c, Close(c.(sweeps := c.sweeps - {k}), k.job, Throwing(Unanticipated)))
  {
    var mid := c.(sweeps := c.sweeps - {k});
    CloseAges(mid, k.job, Throwing(Unanticipated));
    forall i | 0 <= i < |c.chain| ensures AgesWell(c, Close(mid, k.job, Throwing(Unanticipated)), i) {
      assert AgesWell(mid, Close(mid, k.job, Throwing(Unanticipated)), i);
    }
  }

  lemma StepAges(c: Core, e: Event)
    requires Inv(c) && Enabled(c, e)
    ensures Ages(c, Step(c, e))
  {
    hide LeasesBut, AccountOk;
    if Resumes(e) { ResumeAges(c, e); }
    else if Asks(e) { AskAges(c, e); }
    else if e.Throws? { CloseAges(c, e.job, Throwing(Unanticipated)); }
    else if e.Mine? || e.Drop? { ChainMovesAge(c, e); }
    else if e.SweepFails? && e.sweep.OfJob? && PhaseOf(c, e.sweep.job).Sweeping? { FailedSweepAges(c, e.sweep); }
  }

  /** The counts of a sweep that the step does not touch keep saying what they said. */
  lemma AgedSweep(c: Core, d: Core, s: Sweep)
    requires Ages(c, d) && SweepOk(c, s)
    ensures SweepOk(d, s)
  {
    if s.todo != [] && s.todo[0] < |d.pool.workers| {
      assert AgesWell(c, d, s.todo[0]);
    }
  }

  /** A count just read is right, and dates the sweep by the current epoch if it is the first. */
  lemma NotedSweep(c: Core, k: SweepId, latest: bool)
    requires Inv(c) && HasTarget(c, k) && SweepOk(c, c.sweeps[k])
    ensures SweepOk(c, Note(c, k, latest).sweeps[k])
  {
    assert AccountOk(c, c.sweeps[k].todo[0]);
  }

  /** Every sweep of the next state is an old one, one with a count just read, or one with none. */
  predicate OfSweep(e: Event) {
    e.Derived? || e.OpenSweep? || e.ReadLatest? || e.ReadPending? || e.Verdict? || e.SweepFails? || e.SweepEnds?
  }

  lemma SweepsStay(c: Core, e: Event)
    requires Enabled(c, e) && !OfSweep(e)
    ensures Step(c, e).sweeps == c.sweeps
  {
    if Resumes(e) { ResumeKeepsSweeps(c, e); }
  }

  lemma SweepsMove(c: Core, e: Event, k: SweepId)
    requires Enabled(c, e) && k in Step(c, e).sweeps
    ensures var s := Step(c, e).sweeps[k];
      || (k in c.sweeps && s == c.sweeps[k])
      || (s.latest.None? && s.pending.None? && s.epoch == 0)
      || ((e.ReadLatest? || e.ReadPending?) && k == e.sweep)
  {
    if !OfSweep(e) { SweepsStay(c, e); }
  }

  lemma ResumeKeepsSweeps(c: Core, e: Event)
    requires Resumes(e) && Enabled(c, e)
    ensures Resume(c, e).sweeps == c.sweeps
  {}

  lemma StepKeepsSweeps(c: Core, e: Event)
    requires Inv(c) && SweepsOk(c) && Enabled(c, e)
    ensures SweepsOk(Step(c, e))
  {
    hide Inv, AgesWell;
    var d := Step(c, e);
    StepAges(c, e);
    forall k | k in d.sweeps ensures SweepOk(d, d.sweeps[k]) {
      SweepsMove(c, e, k);
      if k in c.sweeps && d.sweeps[k] == c.sweeps[k] {
        AgedSweep(c, d, c.sweeps[k]);
      } else if (e.ReadLatest? || e.ReadPending?) && k == e.sweep {
        NotedSweep(c, k, e.ReadLatest?);
        AgedSweep(c, d, d.sweeps[k]);
      }
    }
  }

  /** Within one quarantine, a verdict reached from counts read at any two moments is timely. */
  lemma FreshIsTimely(c: Core, e: Event)
    requires Inv(c) && SweepsOk(c) && Enabled(c, e) && Fresh(c, e)
    ensures Timely(c, e)
  {
    if Clears(c, e) {
      var s := c.sweeps[e.sweep];
      assert SweepOk(c, s);
      assert AccountOk(c, s.todo[0]);
    }
  }

  ghost predicate AllFresh(c: Core, es: seq<Event>)
    requires Possible(c, es)
    decreases |es|
  {
    es == [] || (Fresh(c, es[0]) && AllFresh(Step(c, es[0]), es[1..]))
  }

  lemma {:induction false} FreshRunsAreTimely(c: Core, es: seq<Event>)
    requires Inv(c) && SweepsOk(c) && Possible(c, es) && AllFresh(c, es)
    ensures AllTimely(c, es) && Inv(After(c, es))
    decreases |es|
  {
    if es != [] {
      FreshIsTimely(c, es[0]);
      StepKeepsInv(c, es[0]);
      StepKeepsSweeps(c, es[0]);
      FreshRunsAreTimely(Step(c, es[0]), es[1..]);
    }
  }

  /**
   * Whatever the interleaving of jobs, sweeps and chain: when no clear spans a newer quarantine
   * of its worker, every state is nonce-safe, and whatever a node accepts next is alone on its
   * address and takes the next nonce.
   */
  lemma NonceSafety(c: Core, es: seq<Event>, j: JobId)
    requires Init(c) && Possible(c, es) && AllFresh(c, es)
    ensures AlwaysSafe(c, es)
    ensures var d := After(c, es); Enabled(d, NodeAccepts(j)) ==>
      d.chain[LeaseOf(d, j)].outstanding == {} && PhaseOf(d, j).nonce == Latest(d.chain[LeaseOf(d, j)])
  {
    InitInv(c);
    FreshRunsAreTimely(c, es);
    SafeExactlyWhenTimely(c, es);
    if Enabled(After(c, es), NodeAccepts(j)) {
      BroadcastIsAlone(After(c, es), j);
    }
  }

  /**
   * Counts read together tell the two apart exactly: a quarantined worker returns if and only
   * if nothing of it is outstanding, whether its transaction was mined or dropped.
   */
  lemma VerdictIsExact(c: Core, k: SweepId)
    requires Inv(c) && HasTarget(c, k) && c.sweeps[k].latest.None? && c.sweeps[k].pending.None?
    requires c.sweeps[k].todo[0] < |c.pool.workers| && c.pool.workers[c.sweeps[k].todo[0]].pendingNonce.Some?
    ensures var at := c.sweeps[k].todo[0]; var d := Judged(Note(Note(c, k, true), k, false), k);
      d.pool.workers[at].pendingNonce.None? <==> c.chain[at].outstanding == {}
  {
    assert AccountOk(c, c.sweeps[k].todo[0]);
  }
}
