/**
 * When an address is held back as short of funds, and when it comes back. A job marks its address
 * against the gas its transaction needs, but the walk of the next job judges it against the floor.
 */
module ShortAddresses {
  import opened Options
  import opened PoolModel
  import opened JobProtocol
  import LeaseSafety
  import Service
  import ServiceRuns
  import ServiceSafety
  import StaleClear

  predicate IsShort(c: Core, at: Place) { at < |c.pool.workers| && c.pool.workers[at].underfunded }

  /** The event reads the balance of the worker at `at` in a walk of short workers, or for the worker list. */
  predicate Rereads(c: Core, e: Event, at: Place)
    requires Enabled(c, e)
  {
    || (e.Refreshed? && PhaseOf(c, e.job) == Refreshing(at))
    || (e.RequestRefreshes? && e.at == at)
  }

  /** The event ends a job because the address it holds, the one at `at`, cannot pay. */
  predicate FailsShort(c: Core, e: Event, at: Place)
    requires Enabled(c, e)
  {
    || (e.BalanceRead? && LeaseOf(c, e.job) == at && e.balance < c.floor)
    || (e.InsufficientFunds? && LeaseOf(c, e.job) == at)
    || (e.Estimated? && LeaseOf(c, e.job) == at && PhaseOf(c, e.job).balance < e.gasCost)
  }

  // ------------------------------------------------------------------ one step

  /** Two cores agree on who is short. */
  ghost predicate SameShort(c: Core, d: Core) {
    && |d.pool.workers| == |c.pool.workers|
    && forall i :: 0 <= i < |c.pool.workers| ==> d.pool.workers[i].underfunded == c.pool.workers[i].underfunded
  }

  lemma {:induction false} HandOffKeepsShort(p: Pool)
    ensures |HandOff(p).workers| == |p.workers|
    ensures forall i :: 0 <= i < |p.workers| ==> HandOff(p).workers[i].underfunded == p.workers[i].underfunded
    decreases |p.waiters|
  {
    if p.waiters != [] && Available(p).Some? {
      HandOffKeepsShort(Lease(p.(waiters := p.waiters[1..]), Available(p).value, p.waiters[0]));
    }
  }

  lemma CloseKeepsShort(c: Core, j: JobId, ph: Phase)
    requires j in c.procs
    ensures SameShort(c, Close(c, j, ph))
  {
    var pr := c.procs[j];
    if pr.worker.Some? && !pr.released { HandOffKeepsShort(Free(c.pool, pr.worker.value)); }
  }

  lemma EndingShort(c: Core, j: JobId, balance: nat, minimum: nat, at: Place)
    requires j in c.procs && at < |c.pool.workers| && balance < minimum
    ensures |Short(c, j, balance, minimum).pool.workers| == |c.pool.workers|
    ensures IsShort(Short(c, j, balance, minimum), at) <==> IsShort(c, at) || LeaseOf(c, j) == at
  {
    hide Close;
    CloseKeepsShort(Rebalanced(c, LeaseOf(c, j), balance, minimum), j, Ended);
  }

  lemma GivingUpKeepsShort(c: Core, j: JobId)
    requires KnowsNonce(PhaseOf(c, j))
    ensures SameShort(c, GiveUp(c, j))
  {
    hide Close;
    CloseKeepsShort(c.(pool := Quarantine(c.pool, LeaseOf(c, j), NonceOf(PhaseOf(c, j)))), j, Ended);
  }

  lemma PreflightShort(c: Core, e: Event, at: Place)
    requires LeaseSafety.Preflight(e) && Enabled(c, e) && at < |c.pool.workers|
    ensures |Resume(c, e).pool.workers| == |c.pool.workers|
    ensures IsShort(Resume(c, e), at) <==> IsShort(c, at) || FailsShort(c, e, at)
  {
    hide Close, Short;
    var j, ph := e.job, PhaseOf(c, e.job);
    CloseKeepsShort(c, j, Throwing(ShuttingDown));
    var balance := if e.BalanceRead? then e.balance else ph.balance;
    var minimum := if e.BalanceRead? then c.floor else if e.Estimated? then e.gasCost else ph.balance + 1;
    if balance < minimum { EndingShort(c, j, balance, minimum, at); }
  }

  lemma LaterKeepsShort(c: Core, e: Event)
    requires Resumes(e) && !LeaseSafety.Preflight(e) && Enabled(c, e)
    ensures SameShort(c, Resume(c, e))
  {
    hide Close, GiveUp;
    if e.SendThrows? || e.ConfirmTimesOut? { GivingUpKeepsShort(c, e.job); }
    else { CloseKeepsShort(c, e.job, if e.Receipt? && e.success then AwaitingRespond else Ended); }
  }

  lemma AskKeepsShort(c: Core, e: Event)
    requires LeaseSafety.Asks(e) && Enabled(c, e)
    ensures SameShort(c, Step(c, e))
  {
    hide Close;
    if e.AsksLease? { CloseKeepsShort(c, e.job, Throwing(ShuttingDown)); }
    else if e.LeaseSettles? { SettlingKeepsShort(c, e.job); }
  }

  lemma SettlingKeepsShort(c: Core, j: JobId)
    requires Enabled(c, LeaseSettles(j))
    ensures SameShort(c, SettleLease(c, j))
  {
    hide Close;
    match c.pool.settled[c.procs[j].ticket.value]
    case Granted(_) =>
    case Refused(reason) => CloseKeepsShort(c, j, Throwing(NoWorker(reason)));
    case Abandoned => CloseKeepsShort(c, j, Throwing(Unanticipated));
  }

  lemma SweepKeepsShort(c: Core, e: Event)
    requires LeaseSafety.Sweeps(e) && Enabled(c, e)
    ensures SameShort(c, Step(c, e))
  {
    hide Close;
    if e.SweepFails? && e.sweep.OfJob? && PhaseOf(c, e.sweep.job).Sweeping? {
      CloseKeepsShort(c.(sweeps := c.sweeps - {e.sweep}), e.sweep.job, Throwing(Unanticipated));
    }
  }

  /** Rereading is all that takes an address off the short list, and only a balance of at least the floor does. */
  lemma StepShort(c: Core, e: Event, at: Place)
    requires Enabled(c, e) && at < |c.pool.workers|
    ensures |Step(c, e).pool.workers| == |c.pool.workers|
    ensures IsShort(Step(c, e), at) <==>
      if Rereads(c, e, at) then e.balance < c.floor else IsShort(c, at) || FailsShort(c, e, at)
  {
    if Resumes(e) {
      hide Resume;
      if LeaseSafety.Preflight(e) { PreflightShort(c, e, at); } else { LaterKeepsShort(c, e); }
    } else {
      hide Step;
      OtherStepShort(c, e, at);
    }
  }

  lemma OtherStepShort(c: Core, e: Event, at: Place)
    requires Enabled(c, e) && !Resumes(e) && at < |c.pool.workers|
    ensures |Step(c, e).pool.workers| == |c.pool.workers|
    ensures IsShort(Step(c, e), at) <==> if Rereads(c, e, at) then e.balance < c.floor else IsShort(c, at)
  {
    if LeaseSafety.Asks(e) { AskKeepsShort(c, e); }
    else if LeaseSafety.Sweeps(e) { SweepKeepsShort(c, e); }
    else if e.Throws? { CloseKeepsShort(c, e.job, Throwing(Unanticipated)); }
  }

  /**
   * A worker marked short, for whatever reason and against whatever figure, stops being short in a step if and only
   * if a job's walk, or a request for the worker list, reads a balance of at least the floor for it in that step.
   */
  lemma ComesBackExactlyWhen(c: Core, e: Event, at: Place)
    requires Enabled(c, e) && IsShort(c, at)
    ensures at < |Step(c, e).pool.workers|
    ensures !IsShort(Step(c, e), at) <==> Rereads(c, e, at) && e.balance >= c.floor
  {
    hide Step, Enabled, FailsShort;
    StepShort(c, e, at);
  }

  // ------------------------------------------------------------------ the balance a gas cost is held against

  /** The balance that the job last read for its address. */
  function LastBalance(es: seq<Event>, j: JobId): Option<nat> {
    if es == [] then None
    else
      var last := es[|es| - 1];
      if last.BalanceRead? && last.job == j then Some(last.balance) else LastBalance(es[..|es| - 1], j)
  }

  /** The job knows its balance and has not been told what its transaction costs. */
  predicate KnowsBalance(ph: Phase) { ph.ReadingNonce? || ph.Estimating? }

  lemma BalanceStays(c: Core, e: Event, j: JobId)
    requires Enabled(c, e) && KnowsBalance(PhaseOf(Step(c, e), j))
    ensures var d := Step(c, e);
      if e.BalanceRead? && e.job == j then PhaseOf(d, j).balance == e.balance
      else KnowsBalance(PhaseOf(c, j)) && PhaseOf(d, j).balance == PhaseOf(c, j).balance
  {
    hide Step, Enabled;
    if e.Start? { StartKnowsNothing(c, e.job, j); }
    else if j !in c.procs { NobodyNew(c, e); }
    else if Service.OwnerOf(e) != Some(j) { ServiceSafety.OthersPhase(c, e, j); }
    else if Resumes(e) { OwnBalanceStays(c, e); }
    else { NotOnTheWay(c, e, j); }
  }

  lemma StartKnowsNothing(c: Core, k: JobId, j: JobId)
    requires Enabled(c, Start(k))
    ensures PhaseOf(Step(c, Start(k)), j) == if j == k then Deriving else PhaseOf(c, j)
  {
  }

  lemma NobodyNew(c: Core, e: Event)
    requires Enabled(c, e) && !e.Start?
    ensures Step(c, e).procs.Keys == c.procs.Keys
  {
    hide Step, Enabled;
    ServiceRuns.NobodyNew(c, e);
  }

  lemma OwnBalanceStays(c: Core, e: Event)
    requires Resumes(e) && Enabled(c, e) && KnowsBalance(PhaseOf(Step(c, e), e.job))
    ensures if e.BalanceRead? then PhaseOf(Step(c, e), e.job).balance == e.balance
      else KnowsBalance(PhaseOf(c, e.job)) && PhaseOf(Step(c, e), e.job).balance == PhaseOf(c, e.job).balance
  {
    hide Resume;
    ServiceSafety.ResumeMoves(c, e);
  }

  lemma NotOnTheWay(c: Core, e: Event, j: JobId)
    requires Enabled(c, e) && !e.Start? && !Resumes(e) && Service.OwnerOf(e) == Some(j) && j in c.procs
    ensures KnowsBalance(PhaseOf(Step(c, e), j)) ==>
      KnowsBalance(PhaseOf(c, j)) && PhaseOf(Step(c, e), j) == PhaseOf(c, j)
  {
    hide Release, AcquireWithin;
  }

  /** Over every run: the balance a job holds its gas cost against is the one it last read for its address. */
  lemma {:induction false} BalanceIsRead(c: Core, es: seq<Event>, j: JobId)
    requires Init(c) && Possible(c, es) && KnowsBalance(PhaseOf(After(c, es), j))
    ensures LastBalance(es, j) == Some(PhaseOf(After(c, es), j).balance)
    decreases |es|
  {
    hide Step, Enabled, PhaseOf;
    if es == [] {
      NobodyAtFirst(c, j);
    } else {
      var n := |es| - 1;
      RunsSplit(c, es, n);
      LastStep(c, es);
      BalanceStays(After(c, es[..n]), es[n], j);
      if !(es[n].BalanceRead? && es[n].job == j) { BalanceIsRead(c, es[..n], j); }
    }
  }

  lemma NobodyAtFirst(c: Core, j: JobId)
    requires Init(c)
    ensures PhaseOf(c, j) == Ended
  {
  }

  lemma LastStep(c: Core, es: seq<Event>)
    requires Possible(c, es) && es != []
    ensures Possible(c, es[..|es| - 1]) && Enabled(After(c, es[..|es| - 1]), es[|es| - 1])
    ensures After(c, es) == Step(After(c, es[..|es| - 1]), es[|es| - 1])
  {
    hide Step, Enabled;
    var n := |es| - 1;
    RunsSplit(c, es, n);
    assert es[n..][0] == es[n] && es[n..][1..] == [];
    var d := After(c, es[..n]);
    assert After(Step(d, es[n]), []) == Step(d, es[n]);
  }

  // ------------------------------------------------------------------ the walk

  lemma {:induction false} NextShortIsFirst(ws: seq<Worker>, from: Place, at: Place)
    requires from <= at < |ws| && ws[at].underfunded
    ensures NextShort(ws, from) <= at
    decreases |ws| - from
  {
    if !ws[from].underfunded { NextShortIsFirst(ws, from + 1, at); }
  }

  lemma {:induction false} NextShortIsExact(ws: seq<Worker>, from: Place)
    ensures var n := NextShort(ws, from);
      && n >= from && (n < |ws| ==> ws[n].underfunded)
      && forall i :: from <= i < n && i < |ws| ==> !ws[i].underfunded
    decreases |ws| - from
  {
    if from < |ws| && !ws[from].underfunded { NextShortIsExact(ws, from + 1); }
  }

  /** The walk stands at `n`: a short address or past the end, with none short passed over since `from`. */
  predicate StandsAtNext(c: Core, n: Place, from: Place) {
    && n >= from && (n < |c.pool.workers| ==> IsShort(c, n))
    && forall i :: from <= i < n ==> !IsShort(c, i)
  }

  /** A walk starts at the first short address; from each one it goes on, ahead, to the next. */
  lemma WalkGoesOn(c: Core, e: Event, j: JobId)
    requires Enabled(c, e)
    requires (e == SweepEnds(OfJob(j)) && PhaseOf(c, j).Sweeping?) || (e.Refreshed? && e.job == j)
    ensures var ph := PhaseOf(Step(c, e), j);
      ph.Refreshing? && StandsAtNext(Step(c, e), ph.at, if e.Refreshed? then PhaseOf(c, j).at + 1 else 0)
  {
    if e.Refreshed? {
      var d := Rebalanced(c, PhaseOf(c, j).at, e.balance, c.floor);
      NextShortIsExact(d.pool.workers, PhaseOf(c, j).at + 1);
    } else {
      NextShortIsExact(c.pool.workers, 0);
    }
  }

  /** Job `j` is on its way to the lease and its walk has not gone past `at`. */
  predicate Before(c: Core, j: JobId, at: Place) {
    var ph := PhaseOf(c, j);
    j in c.procs && (ph.Deriving? || ph.Sweeping? || (ph.Refreshing? && ph.at <= at))
  }

  /** The walk of job `j` itself rereads the worker at `at`, or somebody else finds it funded. */
  predicate Judges(c: Core, e: Event, j: JobId, at: Place)
    requires Enabled(c, e)
  {
    Rereads(c, e, at) && ((e.Refreshed? && e.job == j) || e.balance >= c.floor)
  }

  lemma OwnStepStaysBefore(c: Core, e: Event, j: JobId, at: Place)
    requires Enabled(c, e) && IsShort(c, at) && Before(c, j, at) && !Judges(c, e, j, at)
    requires e == Derived(j) || e == Throws(j) || e == SweepEnds(OfJob(j)) || e == SweepFails(OfJob(j))
      || (e.Refreshed? && e.job == j)
    ensures Before(Step(c, e), j, at) || Over(PhaseOf(Step(c, e), j))
  {
    hide Close;
    CloseMoves(c, j);
    if e.SweepEnds? {
      NextShortIsFirst(c.pool.workers, 0, at);
    } else if e.SweepFails? {
      CloseMoves(c.(sweeps := c.sweeps - {e.sweep}), j);
    } else if e.Refreshed? {
      var d := Rebalanced(c, PhaseOf(c, j).at, e.balance, c.floor);
      NextShortIsFirst(d.pool.workers, PhaseOf(c, j).at + 1, at);
    }
  }

  lemma CloseMoves(c: Core, j: JobId)
    requires j in c.procs
    ensures PhaseOf(Close(c, j, Throwing(Unanticipated)), j) == Throwing(Unanticipated)
  {
  }

  /** What a job on its way to the lease may do next by itself. */
  lemma OwnSteps(c: Core, e: Event, j: JobId, at: Place)
    requires Enabled(c, e) && !e.Start? && Service.OwnerOf(e) == Some(j)
    requires at < |c.pool.workers| && Before(c, j, at)
    ensures e == Derived(j) || e == Throws(j) || e == SweepEnds(OfJob(j)) || e == SweepFails(OfJob(j))
      || (e.Refreshed? && e.job == j)
  {
  }

  lemma OtherStepStaysBefore(c: Core, e: Event, j: JobId, at: Place)
    requires Enabled(c, e) && Before(c, j, at) && (e.Start? || Service.OwnerOf(e) != Some(j))
    ensures Before(Step(c, e), j, at)
  {
    hide Step, Enabled;
    if e.Start? { StartKeepsOthers(c, e.job, j); } else { ServiceSafety.OthersPhase(c, e, j); }
  }

  lemma StartKeepsOthers(c: Core, k: JobId, j: JobId)
    requires Enabled(c, Start(k)) && j in c.procs
    ensures j in Step(c, Start(k)).procs && Step(c, Start(k)).procs[j] == c.procs[j]
  {
  }

  /** The job has ended, or it has not come past the short worker. */
  ghost predicate NotYetPast(c: Core, j: JobId, at: Place) {
    j in c.procs && (Over(c.procs[j].phase) || (IsShort(c, at) && Before(c, j, at)))
  }

  lemma StaysNotPast(c: Core, e: Event, j: JobId, at: Place)
    requires Enabled(c, e) && IsShort(c, at) && Before(c, j, at) && !Judges(c, e, j, at)
    ensures NotYetPast(Step(c, e), j, at)
  {
    StepShort(c, e, at);
    hide Step, Enabled, Rereads, FailsShort, Over;
    if e.Start? || Service.OwnerOf(e) != Some(j) {
      OtherStepStaysBefore(c, e, j, at);
    } else {
      OwnSteps(c, e, j, at);
      OwnStepStaysBefore(c, e, j, at);
    }
  }

  lemma OverStays(c: Core, e: Event, j: JobId)
    requires Enabled(c, e) && j in c.procs && Over(c.procs[j].phase)
    ensures j in Step(c, e).procs && Over(Step(c, e).procs[j].phase)
  {
    hide Step, Enabled;
    if e.Start? {
      StartKeepsOthers(c, e.job, j);
    } else if Service.OwnerOf(e) != Some(j) {
      ServiceSafety.OthersPhase(c, e, j);
    } else {
      OverDoes(c, e, j);
    }
  }

  lemma OverSteps(c: Core, e: Event, j: JobId)
    requires Enabled(c, e) && !e.Start? && Service.OwnerOf(e) == Some(j) && j in c.procs && Over(c.procs[j].phase)
    ensures e == Caught(j) || e == SweepEnds(OfJob(j)) || e == SweepFails(OfJob(j))
  {
  }

  lemma OverDoes(c: Core, e: Event, j: JobId)
    requires Enabled(c, e) && !e.Start? && Service.OwnerOf(e) == Some(j) && j in c.procs && Over(c.procs[j].phase)
    ensures j in Step(c, e).procs && Over(Step(c, e).procs[j].phase)
  {
    OverSteps(c, e, j);
    hide Enabled, Service.OwnerOf, Close;
  }

  /** The event that judges, somewhere in the run. */
  ghost predicate EverJudged(c: Core, es: seq<Event>, j: JobId, at: Place)
    requires Possible(c, es)
    decreases |es|
  {
    es != [] && (Judges(c, es[0], j, at) || EverJudged(Step(c, es[0]), es[1..], j, at))
  }

  /**
   * No walk skips a short address. In every run in which a job on its way asks for its lease, every address that was
   * short before its walk came past was reread on the way, whatever the other jobs did meanwhile: by the job itself,
   * or by somebody who found it at the floor or above. So the next job judges it against the floor.
   */
  lemma {:induction false} NoWalkSkipsShort(c: Core, es: seq<Event>, j: JobId, at: Place)
    requires Possible(c, es) && Enabled(After(c, es), AsksLease(j)) && IsShort(c, at) && Before(c, j, at)
    ensures EverJudged(c, es, j, at)
    decreases |es|
  {
    hide Step, Judges;
    if es == [] {
      CannotAskYet(c, j, at);
    } else if !Judges(c, es[0], j, at) {
      StaysNotPast(c, es[0], j, at);
      var d := Step(c, es[0]);
      if Over(d.procs[j].phase) {
        NeverAsksAgain(d, es[1..], j);
      } else {
        NoWalkSkipsShort(d, es[1..], j, at);
      }
    }
  }

  lemma CannotAskYet(c: Core, j: JobId, at: Place)
    requires IsShort(c, at) && Before(c, j, at)
    ensures !Enabled(c, AsksLease(j))
  {
  }

  lemma {:induction false} NeverAsksAgain(c: Core, es: seq<Event>, j: JobId)
    requires Possible(c, es) && j in c.procs && Over(c.procs[j].phase)
    ensures !Enabled(After(c, es), AsksLease(j))
    decreases |es|
  {
    hide Step;
    if es != [] {
      OverStays(c, es[0], j);
      NeverAsksAgain(Step(c, es[0]), es[1..], j);
    }
  }

  // ------------------------------------------------------------------ a run in which it comes back

  /** A job from its start to the estimate that its address cannot pay: a gas cost of 5 wei, on a balance of 0. */
  ghost function ToShortage(j: JobId): seq<Event> {
    StaleClear.Entry(j) + StaleClear.Advances(j)[..2] + [Estimated(j, 5)]
  }

  /** `c` after job `j` failed for want of gas: the address is free, and marked as short. */
  ghost function Marked(c: Core, j: JobId): Core
    requires StaleClear.Idle(c)
  {
    var w := c.pool.workers[0];
    StaleClear.Leasing(c, j, Ended).(
      pool := Lease(c.pool.(next := c.pool.next + 1), 0, c.pool.next).(
        workers := [w.(busy := false, underfunded := true, balanceWei := 0, leases := w.leases + 1, lessee := None)]),
      procs := c.procs[j := Proc(Ended, Some(c.pool.next), Some(0), true, false)])
  }

  lemma CannotPay(c: Core, j: JobId)
    requires StaleClear.Idle(c)
    ensures var d := StaleClear.Leasing(c, j, Estimating(0, Latest(c.chain[0])));
      Enabled(d, Estimated(j, 5)) && Step(d, Estimated(j, 5)) == Marked(c, j)
  {
    var d := StaleClear.Leasing(c, j, Estimating(0, Latest(c.chain[0])));
    var b := Rebalanced(d, 0, 0, 5);
    var p := Free(b.pool, 0);
    assert p.workers == Marked(c, j).pool.workers;
    assert Release(b.pool, 0) == p;
    assert Close(b, j, Ended).procs == Marked(c, j).procs;
  }

  lemma RunsShort(c: Core, j: JobId)
    requires StaleClear.Idle(c) && j !in c.procs && OfJob(j) !in c.sweeps
    ensures Possible(c, ToShortage(j)) && After(c, ToShortage(j)) == Marked(c, j)
  {
    hide Step, Enabled, Marked;
    StaleClear.Enters(c, j);
    StaleClear.AdvancesTo(c, j, 2);
    RunsJoin(c, StaleClear.Entry(j), StaleClear.Advances(j)[..2]);
    CannotPay(c, j);
    var d := StaleClear.Leasing(c, j, Estimating(0, Latest(c.chain[0])));
    StaleClear.Trace([d, Marked(c, j)], [Estimated(j, 5)]);
    RunsJoin(c, StaleClear.Entry(j) + StaleClear.Advances(j)[..2], [Estimated(j, 5)]);
  }

  /** The next job, up to its walk's reading of the same balance. */
  ghost function ToReread(j: JobId): seq<Event> {
    [Start(j), Derived(j), SweepEnds(OfJob(j)), Refreshed(j, 0)]
  }

  /** One address, free but marked as short, and nobody waiting. */
  ghost predicate OneShort(c: Core) {
    && |c.pool.workers| == 1 && c.pool.workers[0].underfunded && !c.pool.workers[0].busy
    && c.pool.workers[0].pendingNonce.None? && c.floor == 0
  }

  ghost function RereadStates(c: Core, j: JobId): seq<Core>
    requires OneShort(c)
  {
    var funded := c.pool.workers[0].(underfunded := false, balanceWei := 0);
    [ c,
      StaleClear.Entering(c, j, Deriving),
      StaleClear.Entering(c, j, Sweeping).(sweeps := c.sweeps[OfJob(j) := Sweep([], 0, None, None)]),
      StaleClear.Entering(c, j, Refreshing(0)),
      StaleClear.Entering(c, j, Refreshing(1)).(pool := c.pool.(workers := [funded])) ]
  }

  lemma RereadStep(c: Core, j: JobId, i: nat)
    requires OneShort(c) && j !in c.procs && OfJob(j) !in c.sweeps && i < 4
    ensures Enabled(RereadStates(c, j)[i], ToReread(j)[i])
    ensures Step(RereadStates(c, j)[i], ToReread(j)[i]) == RereadStates(c, j)[i + 1]
  {
    var d, e := RereadStates(c, j)[i], RereadStates(c, j)[i + 1];
    if i == 1 {
      assert Quarantined(c.pool.workers, 1) == [];
      assert Quarantined(c.pool.workers, 0) == [];
      assert Goto(d, j, Sweeping).procs == e.procs;
    } else if i == 2 {
      assert NextShort(c.pool.workers, 0) == 0;
      assert d.sweeps - {OfJob(j)} == c.sweeps;
      assert Goto(d, j, Refreshing(0)).procs == e.procs;
    } else if i == 3 {
      assert SetBalance(c.pool, 0, 0, 0).workers == e.pool.workers;
      assert NextShort(e.pool.workers, 1) == 1;
      assert Goto(Rebalanced(d, 0, 0, 0), j, Refreshing(1)).procs == e.procs;
    }
  }

  lemma Rereading(c: Core, j: JobId)
    requires OneShort(c) && j !in c.procs && OfJob(j) !in c.sweeps
    ensures Possible(c, ToReread(j)) && After(c, ToReread(j)) == RereadStates(c, j)[4]
    ensures After(c, ToReread(j)).pool.workers[0].Eligible() && !IsShort(After(c, ToReread(j)), 0)
  {
    var states, es := RereadStates(c, j), ToReread(j);
    forall i | 0 <= i < 4 ensures Enabled(states[i], es[i]) && Step(states[i], es[i]) == states[i + 1] {
      RereadStep(c, j, i);
    }
    hide Step, Enabled;
    StaleClear.Trace(states, es);
  }

  /** After `first` the worker at `at` is short, and after `next` it can be leased again. */
  ghost predicate MarkedThenBack(c: Core, first: seq<Event>, next: seq<Event>, at: Place) {
    && Possible(c, first) && Possible(c, first + next)
    && var d, e := After(c, first), After(c, first + next);
       IsShort(d, at) && !IsShort(e, at) && at < |e.pool.workers| && e.pool.workers[at].Eligible()
  }

  /**
   * From a fresh service with one address: job 0 fails because a balance of 0 does not pay for gas of 5, its address
   * is marked as short, and the walk of job 1 reads that same balance and makes the address eligible again.
   */
  lemma ShortForGasComesBack()
    ensures Init(StaleClear.OneWorker()) && MarkedThenBack(StaleClear.OneWorker(), ToShortage(0), ToReread(1), 0)
  {
    var c := StaleClear.OneWorker();
    assert StaleClear.Idle(c) && Init(c);
    var d := Marked(c, 0);
    assert OneShort(d) && IsShort(d, 0) && 1 !in d.procs && OfJob(1) !in d.sweeps;
    hide Step, Enabled, Marked, ToShortage, ToReread, OneShort, RereadStates, Init;
    RunsShort(c, 0);
    Rereading(d, 1);
    RunsJoin(c, ToShortage(0), ToReread(1));
  }
}
