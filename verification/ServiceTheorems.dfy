/** The promises of the service, over every run from a fresh start. */
module ServiceTheorems {
  import opened Options
  import opened Sequences
  import Pool = PoolModel
  import PoolFairness
  import Protocol = JobProtocol
  import Store = StoreModel
  import opened StoreSafety
  import Limiter = RateLimiter
  import opened Service
  import opened ServiceSafety
  import opened ServiceRuns
  import LeaseSafety
  import Stats

  // ------------------------------------------------------------------ resources

  /** The tickets that hold workers. */
  ghost function Lessees(ws: seq<Pool.Worker>): (r: set<Pool.Ticket>)
    ensures forall t :: t in r <==> exists i :: 0 <= i < |ws| && ws[i].lessee == Some(t)
  {
    if ws == [] then {}
    else
      var n := |ws| - 1;
      var rest := Lessees(ws[..n]);
      assert forall i :: 0 <= i < n ==> ws[..n][i] == ws[i];
      if ws[n].lessee.Some? then rest + {ws[n].lessee.value} else rest
  }

  lemma {:induction false} OneTicketEach(ws: seq<Pool.Worker>)
    requires forall i :: 0 <= i < |ws| ==> (ws[i].busy <==> ws[i].lessee.Some?)
    requires forall i, k :: 0 <= i < k < |ws| && ws[i].lessee.Some? ==> ws[i].lessee != ws[k].lessee
    ensures |Lessees(ws)| == Pool.Busy(ws)
  {
    if ws != [] {
      var n := |ws| - 1;
      assert forall i :: 0 <= i < n ==> ws[..n][i] == ws[i];
      OneTicketEach(ws[..n]);
      if ws[n].lessee.Some? {
        assert ws[n].lessee.value !in Lessees(ws[..n]);
      }
    }
  }

  ghost function Callers(c: Protocol.Core, ts: set<Pool.Ticket>): set<JobId>
    requires forall t :: t in ts ==> t < |c.callers|
  {
    set t | t in ts :: c.callers[t]
  }

  lemma {:induction false} OneJobEach(c: Protocol.Core, ts: set<Pool.Ticket>)
    requires LeaseSafety.Tickets(c)
    requires forall t :: t in ts ==> t < |c.callers|
    ensures |Callers(c, ts)| == |ts|
    decreases |ts|
  {
    if ts != {} {
      var t :| t in ts;
      var rest := ts - {t};
      OneJobEach(c, rest);
      assert Callers(c, ts) == Callers(c, rest) + {c.callers[t]};
      forall u | u in rest ensures c.callers[u] != c.callers[t] {
        assert c.procs[c.callers[u]].ticket == Some(u);
        assert c.procs[c.callers[t]].ticket == Some(t);
      }
      assert c.callers[t] !in Callers(c, rest);
    }
  }

  /** The tickets that hold a worker or wait for one. */
  ghost function InUse(c: Protocol.Core): set<Pool.Ticket> { Lessees(c.pool.workers) + Elements(c.pool.waiters) }

  lemma LesseesDiffer(p: Pool.Pool)
    requires Pool.WellFormed(p)
    ensures |Lessees(p.workers)| == Pool.Busy(p.workers)
    ensures Lessees(p.workers) !! Elements(p.waiters)
    ensures |Elements(p.waiters)| == |p.waiters|
  {
    OneTicketEach(p.workers);
    ElementsCount(p.waiters);
  }

  /** The job that asked for ticket `t` waits for a worker or holds one. */
  ghost predicate Uses(c: Protocol.Core, t: Pool.Ticket) {
    && t < |c.callers| && c.callers[t] in c.procs
    && (c.procs[c.callers[t]].phase.AwaitingLease? || Protocol.Holding(c.procs[c.callers[t]].phase))
  }

  lemma InUseIsUsed(c: Protocol.Core, t: Pool.Ticket)
    requires LeaseSafety.Leases(c) && t in InUse(c)
    ensures Uses(c, t)
  {
    if t !in c.pool.waiters {
      var i :| 0 <= i < |c.pool.workers| && c.pool.workers[i].lessee == Some(t);
      assert LeaseSafety.Entitled(c, i, t);
    }
  }

  lemma TicketsInUse(c: Protocol.Core)
    requires LeaseSafety.Leases(c)
    ensures |InUse(c)| == Pool.Busy(c.pool.workers) + |c.pool.waiters|
    ensures forall t :: t in InUse(c) ==> Uses(c, t)
  {
    LeaseSafety.PoolIsWellFormed(c);
    LesseesDiffer(c.pool);
    hide LeaseSafety.Leases, Pool.WellFormed, Uses, Pool.Busy;
    forall t | t in InUse(c) ensures Uses(c, t) {
      InUseIsUsed(c, t);
    }
    Disjoint(Lessees(c.pool.workers), Elements(c.pool.waiters));
  }

  lemma UsersAreActive(c: Protocol.Core, st: Store.Store, t: Pool.Ticket)
    requires Agrees(c, st) && Uses(c, t)
    ensures c.callers[t] in Store.ActiveIds(st)
  {
    assert Fits(c.procs[c.callers[t]].phase, FaceOf(st.jobs[c.callers[t]]));
  }

  /** Addresses in use and jobs queued for one never exceed what the store counts as active. */
  lemma ResourcesAreCounted(cfg: Config, s: State)
    requires Inv(cfg, s)
    ensures Pool.Busy(s.core.pool.workers) + |s.core.pool.waiters| <= |Store.ActiveIds(s.store)| <= cfg.limits.maxActive
  {
    var c, ts := s.core, InUse(s.core);
    TicketsInUse(c);
    hide InUse, Agrees, Sound, Metered, Counted, LeaseSafety.LeasesBut, Store.ActiveIds;
    ActiveIsBounded(cfg, s);
    TicketsOf(c);
    OneJobEach(c, ts);
    forall t | t in ts ensures c.callers[t] in Store.ActiveIds(s.store) {
      UsersAreActive(c, s.store, t);
    }
    Fewer(Callers(c, ts), Store.ActiveIds(s.store));
  }

  lemma ActiveIsBounded(cfg: Config, s: State)
    requires Inv(cfg, s)
    ensures |Store.ActiveIds(s.store)| <= cfg.limits.maxActive
  {
  }

  lemma TicketsOf(c: Protocol.Core)
    requires LeaseSafety.Leases(c)
    ensures LeaseSafety.Tickets(c)
  {
  }

  /** At every scheduling point: busy workers + waiters <= active jobs <= `maxActiveJobs`. */
  lemma ResourceCoupling(cfg: Config, s: State, ins: seq<Input>)
    requires Init(s) && Possible(cfg, s, ins)
    ensures var t := After(cfg, s, ins);
      Pool.Busy(t.core.pool.workers) + |t.core.pool.waiters| <= |Store.ActiveIds(t.store)| <= cfg.limits.maxActive
  {
    hide Inv, Init;
    InitInv(cfg, s);
    RunKeepsInv(cfg, s, ins);
    ResourcesAreCounted(cfg, After(cfg, s, ins));
  }

  // ------------------------------------------------------------------ ceilings

  /**
   * The ceilings in every reachable state: at most `maxActiveJobs + maxJobs - 1` jobs are live, none at
   * all when either ceiling is zero, and the store holds at most `retained` records more.
   */
  lemma CapacityHolds(cfg: Config, s: State, ins: seq<Input>)
    requires Init(s) && Possible(cfg, s, ins)
    ensures var st := After(cfg, s, ins).store;
      && |Store.ActiveIds(st)| <= cfg.limits.maxActive
      && |Store.AwaitingIds(st)| <= |Store.LiveIds(st)| <= LiveBound(cfg.limits)
      && |Store.FinishedIds(st)| <= cfg.limits.retained
      && |st.jobs| <= cfg.limits.retained + LiveBound(cfg.limits)
  {
    InitInv(cfg, s);
    RunKeepsInv(cfg, s, ins);
    CountsAddUp(After(cfg, s, ins).store);
  }

  /** Every record of every reachable state is sound, and a finished one's durations fit in its total. */
  lemma RecordsAreSound(cfg: Config, s: State, ins: seq<Input>, id: JobId)
    requires Init(s) && Possible(cfg, s, ins) && id in After(cfg, s, ins).store.jobs
    ensures var j := After(cfg, s, ins).store.jobs[id];
      JobOk(j, After(cfg, s, ins).clock) && (Store.IsFinished(j.state) ==> Adds(Store.DurationsFor(j.timings)))
  {
    InitInv(cfg, s);
    RunKeepsInv(cfg, s, ins);
    var t := After(cfg, s, ins);
    hide JobOk, LeaseSafety.Leases, Agrees, Metered, Counted;
    assert JobOk(t.store.jobs[id], t.clock);
    if Store.IsFinished(t.store.jobs[id].state) { DurationsFit(t.store.jobs[id], t.clock); }
  }

  // ------------------------------------------------------------------ arrivals

  lemma BornInWindows(cfg: Config, s: State, to: int, k: nat)
    requires Metered(cfg, s) && Counted(s)
    ensures |BornWithin(s.born, to - k * cfg.rate.windowMs, to)| <= k * cfg.rate.limit
  {
    hide BornWithin;
    Limiter.WindowsBound(cfg.rate, s.log, to, k);
    var from := to - k * cfg.rate.windowMs;
    assert Limiter.Within(s.log, from, to) == |BornWithin(s.born, from, to)|;
  }

  /** When the job was accepted, as its record tells it. */
  ghost predicate BirthRecorded(s: State, j: JobId) {
    j in s.store.jobs ==>
      j in s.born && Store.AcceptedAt in s.store.jobs[j].timings
        && s.store.jobs[j].timings[Store.AcceptedAt] == s.born[j]
  }

  /** In any `k` consecutive windows at most `k * limit` jobs are accepted, going by the records' own times. */
  lemma JobsPerWindow(cfg: Config, s: State, ins: seq<Input>, to: int, k: nat)
    requires Init(s) && Possible(cfg, s, ins)
    ensures |BornWithin(After(cfg, s, ins).born, to - k * cfg.rate.windowMs, to)| <= k * cfg.rate.limit
    ensures forall j: JobId :: BirthRecorded(After(cfg, s, ins), j)
  {
    hide Init, LeaseSafety.Leases, Sound, Agrees, Metered, BornWithin, Possible;
    InitInv(cfg, s);
    RunKeepsInv(cfg, s, ins);
    BornInWindows(cfg, After(cfg, s, ins), to, k);
  }

  /** The limiter allows a request iff the window before it holds fewer than `limit` accepted jobs. */
  lemma LimiterAllows(cfg: Config, s: State, now: int)
    requires Metered(cfg, s) && Counted(s) && s.clock <= now
    ensures Limiter.ReplyTo(cfg.rate, s.hits, Limiter.TryAcquire(now)).ok
      <==> |BornWithin(s.born, now - cfg.rate.windowMs, now)| < cfg.rate.limit
  {
    hide BornWithin, Counted, Metered, Sorted, Limiter.Pruned, Limiter.Newer, Limiter.Within;
    KeptFollowLog(cfg, s, now);
    LogCountsBirths(s, now - cfg.rate.windowMs, now);
  }

  lemma KeptFollowLog(cfg: Config, s: State, now: int)
    requires Metered(cfg, s) && s.clock <= now
    ensures |Limiter.Pruned(s.hits, now - cfg.rate.windowMs)| == Limiter.Within(s.log, now - cfg.rate.windowMs, now)
  {
    hide Limiter.Refines, Limiter.Pruned, Limiter.Newer, Limiter.Within, Sorted;
    Limiter.KeptIsNewer(cfg.rate, s.hits, s.log, s.clock, now);
    Limiter.NewerIsWithin(s.log, now - cfg.rate.windowMs, now);
  }

  lemma LogCountsBirths(s: State, from: int, upTo: int)
    requires Counted(s)
    ensures Limiter.Within(s.log, from, upTo) == |BornWithin(s.born, from, upTo)|
  {
  }

  /**
   * Admission, both ways: a request is accepted iff neither ceiling is reached and the window before it holds
   * fewer than `limit` accepted jobs; and one refused for capacity is not charged to the limiter.
   */
  lemma AdmissionIsExact(cfg: Config, s: State, j: JobId, mode: Store.Mode, now: int)
    requires Inv(cfg, s) && s.clock <= now && j !in s.core.procs
    ensures Answer(cfg, s, j, now).Accepted? <==>
      && |Store.ActiveIds(s.store)| < cfg.limits.maxActive && |Store.AwaitingIds(s.store)| < cfg.limits.maxJobs
      && |BornWithin(s.born, now - cfg.rate.windowMs, now)| < cfg.rate.limit
    ensures Answer(cfg, s, j, now).Full? ==> Submitted(cfg, s, j, mode, now) == s.(clock := now)
  {
    hide LeaseSafety.Leases, Sound, Agrees, Metered, Counted, Store.ActiveIds, Store.AwaitingIds, BornWithin;
    hide Limiter.ReplyTo, Limiter.HitsAfter, Protocol.Step, Applied;
    LimiterAllows(cfg, s, now);
  }

  // ------------------------------------------------------------------ mainnet

  /** No setting can point volume at mainnet: two live jobs, one of them active, one job a minute. */
  lemma MainnetIsBounded(env: Settings, s: State, ins: seq<Input>, to: int, minutes: nat)
    requires Init(s) && Possible(ConfigFor(true, env), s, ins)
    ensures var t := After(ConfigFor(true, env), s, ins);
      && |Store.LiveIds(t.store)| <= 2 && |Store.ActiveIds(t.store)| <= 1
      && Pool.Busy(t.core.pool.workers) + |t.core.pool.waiters| <= 1
      && |BornWithin(t.born, to - minutes * 60_000, to)| <= minutes
  {
    var cfg := ConfigFor(true, env);
    hide Init, Possible, After, Store.LiveIds, Store.ActiveIds, Store.AwaitingIds, BornWithin;
    CapacityHolds(cfg, s, ins);
    ResourceCoupling(cfg, s, ins);
    JobsPerWindow(cfg, s, ins, to, minutes);
  }

  // ------------------------------------------------------------------ the report

  function ReportAt(cfg: Config, s: State, now: int): Stats.Report {
    Stats.ReportOf(s.store, Stats.RateOf(cfg.rate, s.hits, now), s.core.pool)
  }

  /** The limiter's figures at any later time: the jobs accepted in the last window, and whether one more may be. */
  lemma RateAgrees(cfg: Config, s: State, now: int)
    requires Metered(cfg, s) && Counted(s) && s.clock <= now
    ensures var rate := Stats.RateOf(cfg.rate, s.hits, now);
      && rate.usedInWindow == |BornWithin(s.born, now - cfg.rate.windowMs, now)| <= cfg.rate.limit
      && (cfg.rate.limit > 0 ==> (rate.retryAfterMs == 0 <==> rate.usedInWindow < cfg.rate.limit))
  {
    hide Limiter.Refines, Limiter.ReplyTo, Limiter.HitsAfter;
    Limiter.FiguresAreExact(cfg.rate, s.hits, s.log, s.clock, now);
  }

  lemma {:induction false} AllShort(ws: seq<Pool.Worker>)
    ensures Pool.Underfunded(ws) <= |ws|
    ensures Pool.Underfunded(ws) == |ws| <==> forall i :: 0 <= i < |ws| ==> ws[i].underfunded
  {
    if ws != [] {
      var n := |ws| - 1;
      AllShort(ws[..n]);
      assert forall i :: 0 <= i < n ==> ws[..n][i] == ws[i];
    }
  }

  /** The pool shows every address as underfunded exactly when the next lease is refused for that reason. */
  lemma PoolAgrees(p: Pool.Pool)
    requires Pool.WellFormed(p)
    ensures Pool.Underfunded(p.workers) == |p.workers| <==> Pool.Available(p).None? && Pool.Refusal(p).AllUnderfunded?
  {
    AllShort(p.workers);
    if Pool.Available(p).None? {
      PoolFairness.RefusalSaysWhetherWaitingHelps(p);
    }
  }

  /**
   * In every reachable state the report is consistent; the pool's figures fit in its count of active jobs, the
   * limiter's agree with the jobs accepted, and every address shows as underfunded exactly when a lease is refused
   * for it.
   */
  lemma ReportsAgree(cfg: Config, s: State, ins: seq<Input>, now: int)
    requires Init(s) && Possible(cfg, s, ins) && After(cfg, s, ins).clock <= now
    ensures var t := After(cfg, s, ins); var r, p := ReportAt(cfg, t, now), t.core.pool;
      && Stats.Consistent(t.store, r) && r.busy + r.waiting <= r.active <= cfg.limits.maxActive
      && r.rate.usedInWindow == |BornWithin(t.born, now - cfg.rate.windowMs, now)| <= cfg.rate.limit
      && (cfg.rate.limit > 0 ==> (r.rate.retryAfterMs == 0 <==> r.rate.usedInWindow < cfg.rate.limit))
      && (r.underfunded == r.poolSize <==> Pool.Available(p).None? && Pool.Refusal(p).AllUnderfunded?)
  {
    ResourceCoupling(cfg, s, ins);
    var t := After(cfg, s, ins);
    forall id | id in t.store.jobs ensures t.store.jobs[id].failure.Some? <==> t.store.jobs[id].state.Failed? {
      RecordsAreSound(cfg, s, ins, id);
    }
    InitInv(cfg, s);
    RunKeepsInv(cfg, s, ins);
    SoundIsWellFormed(cfg, t);
    LeaseSafety.PoolIsWellFormed(t.core);
    RateAgrees(cfg, t, now);
    hide Inv, Init, Possible, After, Stats.Consistent, Store.WellFormed, Store.ActiveIds, Pool.Busy;
    hide Pool.WellFormed, Pool.Available, Pool.Refusal, Pool.Underfunded, Stats.RateOf, BornWithin;
    PoolAgrees(t.core.pool);
    Stats.StatsAgree(t.store, Stats.RateOf(cfg.rate, t.hits, now), t.core.pool);
  }
}
