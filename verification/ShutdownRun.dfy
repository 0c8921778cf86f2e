/**
 * A run of the service that ends with a job recorded as `internal_error` because it was queued for an address when the
 * service was told to stop: two jobs, one address, and a shutdown while the second one waits for the first.
 */
module ShutdownRun {
  import opened Options
  import Pool = PoolModel
  import opened JobProtocol
  import Store = StoreModel
  import opened StoreSafety
  import Service
  import opened ServiceSafety
  import opened ServiceRuns
  import opened ServiceScenarios
  import ShutdownRecords
  import opened StaleClear

  type State = Service.State
  type Input = Service.Input
  type Config = Service.Config

  // ------------------------------------------------------------------ the second job queues

  /** The only address is leased and nobody waits. */
  ghost predicate Taken(c: Core) {
    && |c.pool.workers| == 1 && c.pool.workers[0].busy && !c.pool.workers[0].underfunded
    && c.pool.workers[0].pendingNonce.None? && c.pool.waiters == [] && c.pool.next !in c.pool.settled
  }

  ghost function ToQueue(j: JobId): seq<Event> { [Derived(j), SweepEnds(OfJob(j)), AsksLease(j)] }

  ghost function Queueing(c: Core, j: JobId): Core {
    c.(pool := c.pool.(waiters := [c.pool.next], next := c.pool.next + 1),
       callers := c.callers + [j],
       procs := c.procs[j := Proc(AwaitingLease, Some(c.pool.next), None, false, false)])
  }

  ghost function QueueStates(c: Core, j: JobId): seq<Core> {
    [ Entering(c, j, Deriving),
      Entering(c, j, Sweeping).(sweeps := c.sweeps[OfJob(j) := Sweep([], 0, None, None)]),
      Entering(c, j, Refreshing(1)),
      Queueing(c, j) ]
  }

  lemma QueueStep(c: Core, j: JobId, i: nat)
    requires Taken(c) && j !in c.procs && OfJob(j) !in c.sweeps && i < 3
    ensures Enabled(QueueStates(c, j)[i], ToQueue(j)[i])
    ensures Step(QueueStates(c, j)[i], ToQueue(j)[i]) == QueueStates(c, j)[i + 1]
  {
    var d, e := QueueStates(c, j)[i], QueueStates(c, j)[i + 1];
    if i == 0 {
      assert Pool.Quarantined(c.pool.workers, 1) == [];
      assert Pool.Quarantined(c.pool.workers, 0) == [];
      assert Goto(d, j, Sweeping).procs == e.procs;
    } else if i == 1 {
      assert NextShort(c.pool.workers, 1) == 1;
      assert NextShort(c.pool.workers, 0) == 1;
      assert d.sweeps - {OfJob(j)} == c.sweeps;
      assert Goto(d, j, Refreshing(1)).procs == e.procs;
    } else {
      assert c.pool.workers[0].WillFreeUp();
      assert Pool.AcquireWithin(c.pool) == e.pool;
      assert AskLease(d, j).procs == e.procs;
    }
  }

  lemma Queues(c: Core, j: JobId)
    requires Taken(c) && j !in c.procs && OfJob(j) !in c.sweeps
    ensures Enabled(c, Start(j))
    ensures Possible(Step(c, Start(j)), ToQueue(j)) && After(Step(c, Start(j)), ToQueue(j)) == Queueing(c, j)
  {
    var states, es := QueueStates(c, j), ToQueue(j);
    forall i | 0 <= i < 3 ensures Enabled(states[i], es[i]) && Step(states[i], es[i]) == states[i + 1] {
      QueueStep(c, j, i);
    }
    assert Step(c, Start(j)) == states[0];
    hide Step, Enabled;
    Trace(states, es);
  }

  // ------------------------------------------------------------------ the shutdown

  /** ... and after the shutdown its promise has rejected and nobody has caught the rejection yet. */
  lemma Rejects(c: Core, j: JobId)
    requires ShutdownRecords.IsQueued(c, j) && c.procs[j].worker.None?
    requires forall k :: k in c.procs ==> !Over(c.procs[k].phase)
    ensures Possible(c, [AbortAll, LeaseSettles(j)])
    ensures var d := After(c, [AbortAll, LeaseSettles(j)]);
      && j in d.procs && d.procs[j].phase == Throwing(Unanticipated)
      && forall k :: k in d.procs ==> !d.procs[k].phase.Ended?
  {
    RejectionSettles(c, j);
    hide Step, Enabled;
    Trace([c, Abort(c), SettleLease(Abort(c), j)], [AbortAll, LeaseSettles(j)]);
  }

  lemma RejectionSettles(c: Core, j: JobId)
    requires ShutdownRecords.IsQueued(c, j) && c.procs[j].worker.None?
    requires forall k :: k in c.procs ==> !Over(c.procs[k].phase)
    ensures Enabled(c, AbortAll) && Step(c, AbortAll) == Abort(c)
    ensures Enabled(Abort(c), LeaseSettles(j)) && Step(Abort(c), LeaseSettles(j)) == SettleLease(Abort(c), j)
    ensures var d := SettleLease(Abort(c), j);
      && j in d.procs && d.procs[j].phase == Throwing(Unanticipated)
      && forall k :: k in d.procs ==> !d.procs[k].phase.Ended?
  {
    var mid := Abort(c);
    assert mid.pool.settled[mid.procs[j].ticket.value] == Pool.Abandoned;
  }

  // ------------------------------------------------------------------ the record

  /** Of a single finished record none is dropped. */
  lemma OnlyFinishedSurvives(st: Store.Store, retained: nat, id: JobId)
    requires Store.WellFormed(st) && Store.FinishedIds(st) == {id} && retained > 0
    ensures id in Store.Prune(st, retained).jobs && Store.Prune(st, retained).jobs[id] == st.jobs[id]
  {
    assert id in Store.FinishedIds(st);
    assert Store.Later(st, id) == {};
    Store.SurvivesIff(st, retained, id);
  }

  lemma FailureIsKept(st: Store.Store, retained: nat, id: JobId, reason: Store.Reason, now: int)
    requires Store.WellFormed(st) && Store.FinishedIds(st) == {} && id in st.jobs && retained > 0
    ensures var next := Store.Update(st, retained, id, PatchOf(Fail(reason), now));
      id in next.jobs && next.jobs[id].failure == Some(reason)
  {
    var put := st.(jobs := st.jobs[id := Store.Patched(st.jobs[id], PatchOf(Fail(reason), now))]);
    assert Store.FinishedIds(put) == {id} by {
      forall k | k in st.jobs ensures !Store.IsFinished(st.jobs[k].state) { assert k !in Store.FinishedIds(st); }
    }
    OnlyFinishedSurvives(put, retained, id);
  }

  /** The record of a job that was rejected, and of no other that has ended, once the rejection is caught. */
  lemma CaughtIsRecorded(cfg: Config, s: State, j: JobId)
    requires Inv(cfg, s) && cfg.limits.retained > 0
    requires j in s.core.procs && s.core.procs[j].phase == Throwing(Unanticipated)
    requires forall k :: k in s.core.procs ==> !s.core.procs[k].phase.Ended?
    ensures var i := Service.Happens(Caught(j), s.clock);
      && Service.Enabled(s, i)
      && var t := Service.Step(cfg, s, i);
         j in t.store.jobs && t.store.jobs[j].failure == Some(Store.InternalError)
         && j in t.core.procs && t.core.procs[j].phase.Ended?
  {
    hide Inv, Store.WellFormed, Store.FinishedIds, Store.Update, PatchOf, Final, Service.Ops, Step;
    NoneFinished(cfg, s, j);
    FailureIsKept(s.store, cfg.limits.retained, j, Store.InternalError, s.clock);
    CaughtDoes(s.core, s.store, cfg.limits, j, s.clock);
  }

  lemma CaughtDoes(c: Core, st: Store.Store, l: Store.Limits, j: JobId, now: int)
    requires j in c.procs && c.procs[j].phase == Throwing(Unanticipated)
    ensures Enabled(c, Caught(j))
    ensures Final(st, l, Service.Ops(c, Caught(j), now))
      == Store.Update(st, l.retained, j, PatchOf(Fail(Store.InternalError), now))
    ensures j in Step(c, Caught(j)).procs && Step(c, Caught(j)).procs[j].phase.Ended?
  {
    hide Store.Update;
    var ops := Service.Ops(c, Caught(j), now);
    assert Service.Moves(c, Caught(j))[1..] == [];
    assert ops == [Act(j, Fail(Store.InternalError), now)] + Service.Acts(j, [], now);
    assert ops[1..] == [];
  }

  lemma NoneFinished(cfg: Config, s: State, j: JobId)
    requires Inv(cfg, s) && j in s.core.procs && forall k :: k in s.core.procs ==> !s.core.procs[k].phase.Ended?
    ensures Store.WellFormed(s.store) && Store.FinishedIds(s.store) == {} && j in s.store.jobs
  {
    SoundIsWellFormed(cfg, s);
    NobodyFinished(s.core, s.store);
  }

  lemma NobodyFinished(c: Core, st: Store.Store)
    requires Agrees(c, st) && forall k :: k in c.procs ==> !c.procs[k].phase.Ended?
    ensures Store.FinishedIds(st) == {}
  {
    forall k | k in st.jobs ensures !Store.IsFinished(st.jobs[k].state) {
      assert Fits(c.procs[k].phase, FaceOf(st.jobs[k]));
    }
  }

  // ------------------------------------------------------------------ the run

  ghost predicate FirstLeases(c: Core) {
    && Taken(c) && c.procs.Keys == {0} && c.procs[0].phase.CheckingBalance? && OfJob(1) !in c.sweeps
  }

  /** The first job is accepted and leases the only address. */
  lemma FirstTakesAddress(cfg: Config, s: State) returns (ins: seq<Input>)
    requires Inv(cfg, s) && Idle(s.core) && s.core.procs == map[] && s.core.sweeps == map[]
    requires s.core.pool == Pool.Fresh(1)
    requires cfg.limits.maxActive > 0 && cfg.limits.maxJobs > 0 && cfg.rate.limit > 0
    ensures Service.Possible(cfg, s, ins) && FirstLeases(Service.After(cfg, s, ins).core)
  {
    hide Inv, Step, Enabled, ActiveJobs, WaitingJobs, FirstLeases, Idle;
    FirstGoesAhead(s.core);
    ins := AdmitsThen(cfg, s, 0, Entry(0)[1..]);
  }

  lemma FirstGoesAhead(c: Core)
    requires Idle(c) && c.procs == map[] && c.sweeps == map[] && c.pool == Pool.Fresh(1)
    ensures |ActiveJobs(c)| == 0 && |WaitingJobs(c)| == 0 && Enabled(c, Start(0))
    ensures Possible(Step(c, Start(0)), Entry(0)[1..]) && FirstLeases(After(Step(c, Start(0)), Entry(0)[1..]))
  {
    assert ActiveJobs(c) == {} && WaitingJobs(c) == {};
    assert FirstLeases(Leasing(c, 0, CheckingBalance));
    hide Step, Enabled, FirstLeases, Leasing;
    Enters(c, 0);
  }

  ghost predicate SecondQueues(c: Core) {
    && ShutdownRecords.IsQueued(c, 1) && c.procs[1].worker.None? && c.procs.Keys == {0, 1}
    && forall k :: k in c.procs ==> !Over(c.procs[k].phase)
  }

  lemma SecondJoinsQueue(cfg: Config, s: State) returns (ins: seq<Input>)
    requires Inv(cfg, s) && FirstLeases(s.core)
    requires cfg.limits.maxActive > 1 && cfg.limits.maxJobs > 0 && cfg.rate.limit > 0
    ensures Service.Possible(cfg, s, ins) && SecondQueues(Service.After(cfg, s, ins).core)
  {
    hide Inv, Step, Enabled, ActiveJobs, WaitingJobs, FirstLeases, SecondQueues, ToQueue;
    SecondWaitsBehind(s.core);
    ins := AdmitsThen(cfg, s, 1, ToQueue(1));
  }

  lemma SecondWaitsBehind(c: Core)
    requires FirstLeases(c)
    ensures |ActiveJobs(c)| == 1 && |WaitingJobs(c)| == 0 && 1 !in c.procs && Enabled(c, Start(1))
    ensures forall e :: e in ToQueue(1) ==> !e.Start?
    ensures Possible(Step(c, Start(1)), ToQueue(1)) && SecondQueues(After(Step(c, Start(1)), ToQueue(1)))
  {
    assert ActiveJobs(c) == {0} && WaitingJobs(c) == {};
    assert SecondQueues(Queueing(c, 1));
    hide Step, Enabled, SecondQueues, Queueing;
    Queues(c, 1);
  }

  lemma StopsAndCatches(cfg: Config, s: State) returns (ins: seq<Input>)
    requires Inv(cfg, s) && SecondQueues(s.core) && cfg.limits.retained > 0
    ensures ins == [Service.Happens(AbortAll, s.clock), Service.Happens(LeaseSettles(1), s.clock),
                    Service.Happens(Caught(1), s.clock)]
    ensures Service.Possible(cfg, s, ins) && SaysInternalError(Service.After(cfg, s, ins), 1)
  {
    hide Inv, Step, Enabled, Service.Step, Service.Enabled, ShutdownRecords.IsQueued;
    Rejects(s.core, 1);
    var es := [AbortAll, LeaseSettles(1)];
    EventsRun(cfg, s, es, s.clock);
    var first := AtTime(es, s.clock);
    RunKeepsInv(cfg, s, first);
    var t, i := Service.After(cfg, s, first), Service.Happens(Caught(1), s.clock);
    CaughtIsRecorded(cfg, t, 1);
    OneInput(cfg, t, i);
    InputsJoin(cfg, s, first, [i]);
    ins := first + [i];
  }

  /** Job `j` has ended and its record gives `internal_error` as the reason. */
  ghost predicate SaysInternalError(s: State, j: JobId) {
    && j in s.core.procs && s.core.procs[j].phase.Ended?
    && j in s.store.jobs && s.store.jobs[j].failure == Some(Store.InternalError)
  }

  /** After `before` job `j` is queued, and after `stop` as well it is recorded as `internal_error`. */
  ghost predicate QueuedThenRecorded(cfg: Config, s: State, before: seq<Input>, stop: seq<Input>, j: JobId) {
    && Service.Possible(cfg, s, before) && Service.Possible(cfg, s, before + stop)
    && ShutdownRecords.IsQueued(Service.After(cfg, s, before).core, j)
    && SaysInternalError(Service.After(cfg, s, before + stop), j)
  }

  /**
   * From a fresh service with one address, in every configuration that allows two active jobs and keeps a record: a
   * run in which job 1 is queued when the shutdown comes, and its record ends as `internal_error`.
   */
  lemma QueuedEndsAsInternalError(cfg: Config) returns (before: seq<Input>, stop: seq<Input>)
    requires cfg.limits.maxActive > 1 && cfg.limits.maxJobs > 0 && cfg.limits.retained > 0 && cfg.rate.limit > 0
    ensures Service.Init(FreshService()) && QueuedThenRecorded(cfg, FreshService(), before, stop, 1)
    ensures |stop| == 3 && stop[0].Happens? && stop[0].event == AbortAll && stop[2].Happens?
      && stop[2].event == Caught(1)
  {
    FreshIsIdle();
    var s := FreshService();
    InitInv(cfg, s);
    hide Inv, Service.Init, Service.Step, Service.Enabled, FirstLeases, Idle, FreshService, SaysInternalError;
    var first := FirstTakesAddress(cfg, s);
    RunKeepsInv(cfg, s, first);
    var second := SecondJoinsQueue(cfg, Service.After(cfg, s, first));
    InputsJoin(cfg, s, first, second);
    before := first + second;
    RunKeepsInv(cfg, s, before);
    stop := StopsAndCatches(cfg, Service.After(cfg, s, before));
    InputsJoin(cfg, s, before, stop);
  }
}
