/**
 * What a refused request is told, and what the settings of the environment come to: which ceiling a refusal
 * names, what lifts it, and when the limiter lets the next request through.
 */
module Admission {
  import opened Options
  import Pool = PoolModel
  import Store = StoreModel
  import opened StoreSafety
  import Limiter = RateLimiter
  import opened Service
  import opened ServiceSafety
  import opened ServiceRuns
  import opened ServiceLifecycle
  import opened ServiceTheorems
  import opened ServiceScenarios
  import LeaseSafety

  // ------------------------------------------------------------------ the two ceilings

  /**
   * A refusal names the ceiling that is reached: the one on jobs that are neither confirmed nor over, and only when
   * that one has room the one on jobs waiting for their respond. Each comes with its own delay.
   */
  lemma RefusalNamesCeiling(cfg: Config, s: State, j: JobId, now: int)
    requires Inv(cfg, s)
    ensures Store.ActiveIds(s.store) == ActiveJobs(s.core) && Store.AwaitingIds(s.store) == WaitingJobs(s.core)
    ensures Answer(cfg, s, j, now) == Full(Store.Active, 15_000) <==> |ActiveJobs(s.core)| >= cfg.limits.maxActive
    ensures Answer(cfg, s, j, now) == Full(Store.AwaitingRespond, 60_000)
      <==> |ActiveJobs(s.core)| < cfg.limits.maxActive && |WaitingJobs(s.core)| >= cfg.limits.maxJobs
    ensures var r := Answer(cfg, s, j, now);
      r.Full? ==> r == Full(Store.Active, 15_000) || r == Full(Store.AwaitingRespond, 60_000)
  {
    hide Inv, ActiveJobs, WaitingJobs, BornWithin, Store.ActiveIds, Store.AwaitingIds;
    JobsAreRecorded(cfg, s);
  }

  /** The same service with other ceilings. */
  function WithCeilings(cfg: Config, maxActive: nat, maxJobs: nat): Config {
    cfg.(limits := cfg.limits.(maxActive := maxActive, maxJobs := maxJobs))
  }

  /**
   * Each refusal has its own remedy. A request refused for the active jobs is refused for them under any ceiling on
   * the waiting ones, and under another ceiling on the active ones exactly while that is not above their count; one
   * refused for the waiting jobs is refused for them under any higher ceiling on the active ones.
   */
  lemma EachCeilingHasItsRemedy(cfg: Config, s: State, j: JobId, now: int, maxActive: nat, maxJobs: nat)
    requires Inv(cfg, s)
    requires var r := Answer(cfg, s, j, now); r.Full?
    ensures var r, other := Answer(cfg, s, j, now), Answer(WithCeilings(cfg, maxActive, maxJobs), s, j, now);
      if r.ceiling.Active? then other == r <==> maxActive <= |ActiveJobs(s.core)|
      else maxActive >= cfg.limits.maxActive ==> (other == r <==> maxJobs <= |WaitingJobs(s.core)|)
  {
    hide Inv, ActiveJobs, WaitingJobs, BornWithin, Store.ActiveIds, Store.AwaitingIds;
    JobsAreRecorded(cfg, s);
  }

  // ------------------------------------------------------------------ the limiter's delay

  /** What the limiter's own answers come to, after it has named a delay. */
  lemma RefusedHits(cfg: Config, s: State, j: JobId, mode: Store.Mode, now: int)
    requires Inv(cfg, s) && Enabled(s, Submit(j, mode, now)) && Answer(cfg, s, j, now).Limited?
    ensures var refused := Limiter.HitsAfter(cfg.rate, s.hits, Limiter.TryAcquire(now));
      && Limiter.Refines(cfg.rate, refused, s.log, now) && (cfg.rate.limit == 0 ==> s.log == [])
      && Limiter.ReplyTo(cfg.rate, refused, Limiter.RetryAfter(now))
         == Limiter.Delay(Answer(cfg, s, j, now).retryAfterMs)
      && Submitted(cfg, s, j, mode, now).hits == Limiter.HitsAfter(cfg.rate, refused, Limiter.RetryAfter(now))
  {
    hide Sound, Agrees, Counted, Limiter.Pruned, Limiter.Refines, Store.AtCapacity;
    CallKeepsMetered(cfg, s, Limiter.TryAcquire(now));
  }

  lemma DelayCounts(cfg: Config, s: State, j: JobId, mode: Store.Mode, now: int, later: int)
    requires Inv(cfg, s) && Enabled(s, Submit(j, mode, now)) && Answer(cfg, s, j, now).Limited? && now <= later
    ensures var r := Answer(cfg, s, j, now).retryAfterMs; var hits := Submitted(cfg, s, j, mode, now).hits;
      && (later < now + r ==> !Limiter.ReplyTo(cfg.rate, hits, Limiter.TryAcquire(later)).ok)
      && (later == now + r ==> (Limiter.ReplyTo(cfg.rate, hits, Limiter.TryAcquire(later)).ok <==> cfg.rate.limit > 0))
      && r >= 0
  {
    RefusedHits(cfg, s, j, mode, now);
    hide Inv, Answer, Submitted, Limiter.Refines, Limiter.ReplyTo, Limiter.HitsAfter;
    var r := Answer(cfg, s, j, now).retryAfterMs;
    var refused := Limiter.HitsAfter(cfg.rate, s.hits, Limiter.TryAcquire(now));
    Limiter.RetryAfterIsExact(cfg.rate, refused, s.log, now, now, [], r);
    assert Limiter.Hits(cfg.rate, Limiter.HitsAfter(cfg.rate, refused, Limiter.RetryAfter(now)), [])
      == Limiter.HitsAfter(cfg.rate, refused, Limiter.RetryAfter(now));
    if later < now + r {
      var asked := [Limiter.TryAcquire(later)];
      Limiter.RetryAfterIsExact(cfg.rate, refused, s.log, now, now, asked, r);
      assert asked[0].TryAcquire?;
    }
  }

  /** The window empties as time passes with nothing accepted. */
  lemma BirthsLeave(s: State, windowMs: nat, from: int, upTo: int)
    requires from <= upTo && forall k :: k in s.born ==> s.born[k] <= from
    ensures |BornWithin(s.born, upTo - windowMs, upTo)| <= |BornWithin(s.born, from - windowMs, from)|
  {
    var a, b := BornWithin(s.born, upTo - windowMs, upTo), BornWithin(s.born, from - windowMs, from);
    assert a <= b;
    Fewer(a, b);
  }

  lemma BornBefore(cfg: Config, s: State, j: JobId)
    requires Metered(cfg, s) && Counted(s) && j in s.born
    ensures s.born[j] <= s.clock
  {
    hide Counted, Metered;
    NobodySince(cfg, s, s.born[j]);
    assert j !in BornWithin(s.born, s.clock, s.born[j]);
  }

  /** Later than the delay the limiter has room as it had at its end. */
  lemma RoomStays(cfg: Config, s: State, from: int, upTo: int)
    requires Inv(cfg, s) && s.clock <= from <= upTo
    requires Limiter.ReplyTo(cfg.rate, s.hits, Limiter.TryAcquire(from)).ok
    ensures Limiter.ReplyTo(cfg.rate, s.hits, Limiter.TryAcquire(upTo)).ok
  {
    hide LeaseSafety.Leases, Sound, Agrees, Metered, Counted, BornWithin, Limiter.ReplyTo;
    LimiterAllows(cfg, s, from);
    LimiterAllows(cfg, s, upTo);
    forall k | k in s.born ensures s.born[k] <= from { BornBefore(cfg, s, k); }
    BirthsLeave(s, cfg.rate.windowMs, from, upTo);
  }

  /**
   * The delay of a request refused by the limiter is exact: with nothing happening in between, the next request is
   * accepted if and only if it comes no earlier than that. A service that admits nothing names a whole window.
   */
  lemma DelayIsExact(cfg: Config, s: State, j: JobId, mode: Store.Mode, now: int, k: JobId, later: int)
    requires Inv(cfg, s) && Enabled(s, Submit(j, mode, now)) && Answer(cfg, s, j, now).Limited? && now <= later
    ensures var r := Answer(cfg, s, j, now).retryAfterMs; var t := Submitted(cfg, s, j, mode, now);
      && (cfg.rate.limit > 0 ==> r > 0 && (Answer(cfg, t, k, later).Accepted? <==> later >= now + r))
      && (cfg.rate.limit == 0 ==> r == cfg.rate.windowMs && !Answer(cfg, t, k, later).Accepted?)
  {
    hide Inv, Answer, Limiter.ReplyTo, Limiter.HitsAfter, Admitted;
    var r, t := Answer(cfg, s, j, now).retryAfterMs, Submitted(cfg, s, j, mode, now);
    StepKeepsInv(cfg, s, Submit(j, mode, now));
    hide Submitted;
    Refusal(cfg, s, j, mode, now, k, later);
    StillRefuses(cfg, s, t, now);
    DelayCounts(cfg, s, j, mode, now, later);
    DelayCounts(cfg, s, j, mode, now, now);
    if later > now + r {
      DelayCounts(cfg, s, j, mode, now, now + r);
      if cfg.rate.limit > 0 { RoomStays(cfg, t, now + r, later); }
    }
  }

  /** Asking again at once changes nothing. */
  lemma StillRefuses(cfg: Config, s: State, t: State, now: int)
    requires Inv(cfg, s) && Inv(cfg, t) && s.clock <= now && t.clock <= now && t.born == s.born
    ensures Limiter.ReplyTo(cfg.rate, t.hits, Limiter.TryAcquire(now)).ok
      <==> Limiter.ReplyTo(cfg.rate, s.hits, Limiter.TryAcquire(now)).ok
  {
    hide LeaseSafety.Leases, Sound, Agrees, Metered, Counted, BornWithin, Limiter.ReplyTo;
    LimiterAllows(cfg, s, now);
    LimiterAllows(cfg, t, now);
  }

  /** After a refusal by the limiter only the limiter can refuse the next request. */
  lemma Refusal(cfg: Config, s: State, j: JobId, mode: Store.Mode, now: int, k: JobId, later: int)
    requires Inv(cfg, s) && Enabled(s, Submit(j, mode, now)) && Answer(cfg, s, j, now).Limited?
    ensures var r := Answer(cfg, s, j, now).retryAfterMs; var t := Submitted(cfg, s, j, mode, now);
      && t.clock == now && t.born == s.born && !Limiter.ReplyTo(cfg.rate, s.hits, Limiter.TryAcquire(now)).ok
      && (Answer(cfg, t, k, later).Accepted? <==> Limiter.ReplyTo(cfg.rate, t.hits, Limiter.TryAcquire(later)).ok)
      && (cfg.rate.limit == 0 ==> r == cfg.rate.windowMs && !Answer(cfg, t, k, later).Accepted?)
  {
    hide Inv, Store.AtCapacity, Limiter.HitsAfter, Limiter.Pruned;
  }

  // ------------------------------------------------------------------ settings

  /**
   * Admission, told by the settings: the ceilings and the rate of the environment off mainnet, and two waiting jobs,
   * one active one and one a minute on it, whatever the settings say.
   */
  lemma AdmissionFollowsSettings(isMainnet: bool, env: Settings, s: State, ins: seq<Input>, j: JobId,
      mode: Store.Mode, now: int)
    requires Init(s) && Possible(ConfigFor(isMainnet, env), s, ins)
    requires Enabled(After(ConfigFor(isMainnet, env), s, ins), Submit(j, mode, now))
    ensures var t := After(ConfigFor(isMainnet, env), s, ins);
      Answer(ConfigFor(isMainnet, env), t, j, now).Accepted? <==>
        && |ActiveJobs(t.core)| < (if isMainnet then 1 else env.maxActiveJobs)
        && |WaitingJobs(t.core)| < (if isMainnet then 2 else env.maxJobs)
        && |BornWithin(t.born, now - 60_000, now)| < (if isMainnet then 1 else env.maxRequestsPerMinute)
  {
    var cfg := ConfigFor(isMainnet, env);
    InitInv(cfg, s);
    hide Init, Possible, After, Inv, ActiveJobs, WaitingJobs, BornWithin, Answer, Store.ActiveIds, Store.AwaitingIds;
    RunKeepsInv(cfg, s, ins);
    JobsAreRecorded(cfg, After(cfg, s, ins));
    AdmissionIsExact(cfg, After(cfg, s, ins), j, mode, now);
  }

  /** Off mainnet every bound is the environment's own. */
  lemma SettingsAreBounds(env: Settings, s: State, ins: seq<Input>, upTo: int, minutes: nat)
    requires Init(s) && Possible(ConfigFor(false, env), s, ins)
    ensures var t := After(ConfigFor(false, env), s, ins);
      && |Store.ActiveIds(t.store)| <= env.maxActiveJobs
      && Pool.Busy(t.core.pool.workers) + |t.core.pool.waiters| <= env.maxActiveJobs
      && |Store.LiveIds(t.store)|
         <= (if env.maxActiveJobs == 0 || env.maxJobs == 0 then 0 else env.maxActiveJobs + env.maxJobs - 1)
      && |Store.FinishedIds(t.store)| <= env.retainedJobs
      && |BornWithin(t.born, upTo - minutes * 60_000, upTo)| <= minutes * env.maxRequestsPerMinute
  {
    var cfg := ConfigFor(false, env);
    hide Init, Possible, After, Store.LiveIds, Store.ActiveIds, Store.AwaitingIds, Store.FinishedIds, BornWithin;
    CapacityHolds(cfg, s, ins);
    ResourceCoupling(cfg, s, ins);
    JobsPerWindow(cfg, s, ins, upTo, minutes);
  }

  /** ... and so is every wait, on mainnet too: the signature, the confirmation, and the respond that never came. */
  lemma SettingsAreBudgets(isMainnet: bool, env: Settings, lag: nat, s: State, ins: seq<Input>, id: JobId)
    requires Init(s) && Possible(ConfigFor(isMainnet, env), s, ins)
    requires AllWithinBudgets(ConfigFor(isMainnet, env), lag, s, ins)
    requires id in After(ConfigFor(isMainnet, env), s, ins).store.jobs
    ensures var cfg := ConfigFor(isMainnet, env); var r := After(cfg, s, ins).store.jobs[id];
      var d := Store.DurationsFor(r.timings);
      && (d.signatureMs.Some? ==> d.signatureMs.value <= env.signatureTimeoutMs + lag)
      && (d.confirmationMs.Some? ==> d.confirmationMs.value <= env.ethConfirmTimeoutMs + lag)
      && (r.failure == Some(Store.RespondTimeout) && id in After(cfg, s, ins).core.procs
          && !After(cfg, s, ins).core.procs[id].aborted ==>
            var t := r.timings;
            && Store.FinishedAt in t && Store.ConfirmedAt in t
            && t[Store.FinishedAt] <= t[Store.ConfirmedAt] + env.respondTimeoutMs + lag)
  {
    var cfg := ConfigFor(isMainnet, env);
    InitInv(cfg, s);
    assert AllBudgeted(cfg, lag, s);
    hide Inv, Init, Possible, AllWithinBudgets;
    RunOnBudget(cfg, lag, s, ins);
    RunKeepsInv(cfg, s, ins);
    AllKnown(cfg, After(cfg, s, ins));
    var t := After(cfg, s, ins);
    assert Budgeted(cfg, lag, t.store.jobs[id], t.core.procs[id].aborted);
  }
}
