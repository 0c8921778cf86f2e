/**
 * Runs of the service made from runs of the protocol: the jobs' events at one reading of the clock, and requests
 * that come a window apart, so that the limiter lets them through.
 */
module ServiceScenarios {
  import Protocol = JobProtocol
  import Store = StoreModel
  import opened StoreSafety
  import Limiter = RateLimiter
  import opened Service
  import opened ServiceSafety
  import opened ServiceRuns
  import opened ServiceTheorems
  import StaleClear

  /** A service with one address that has done nothing yet. */
  ghost function FreshService(): State { State(StaleClear.OneWorker(), Store.EMPTY, [], 0, [], map[]) }

  lemma FreshIsIdle()
    ensures Init(FreshService()) && StaleClear.Idle(FreshService().core)
  {
  }

  // ------------------------------------------------------------------ joining runs

  lemma {:induction false} InputsJoin(cfg: Config, s: State, a: seq<Input>, b: seq<Input>)
    requires Possible(cfg, s, a) && Possible(cfg, After(cfg, s, a), b)
    ensures Possible(cfg, s, a + b) && After(cfg, s, a + b) == After(cfg, After(cfg, s, a), b)
    decreases |a|
  {
    hide Step, Enabled;
    if a == [] {
      assert a + b == b;
    } else {
      assert (a + b)[0] == a[0] && (a + b)[1..] == a[1..] + b;
      InputsJoin(cfg, Step(cfg, s, a[0]), a[1..], b);
    }
  }

  lemma OneInput(cfg: Config, s: State, i: Input)
    requires Enabled(s, i)
    ensures Possible(cfg, s, [i]) && After(cfg, s, [i]) == Step(cfg, s, i)
  {
    hide Step, Enabled;
    assert [i][1..] == [];
    assert After(cfg, Step(cfg, s, i), []) == Step(cfg, s, i);
  }

  // ------------------------------------------------------------------ events at one time

  /** The events, all happening at `now`. */
  function AtTime(es: seq<Protocol.Event>, now: int): seq<Input> { seq(|es|,
      i requires 0 <= i < |es| => Happens(es[i], now)) }

  /** Apart from admissions, whatever the protocol can do the service can do. */
  lemma {:induction false} EventsRun(cfg: Config, s: State, es: seq<Protocol.Event>, now: int)
    requires s.clock <= now && Protocol.Possible(s.core, es) && forall e :: e in es ==> !e.Start?
    ensures Possible(cfg, s, AtTime(es, now))
    ensures var t := After(cfg, s, AtTime(es, now));
      t.core == Protocol.After(s.core, es) && t.clock == (if es == [] then s.clock else now)
    decreases |es|
  {
    hide Protocol.Step, Protocol.Enabled, Ops, Final;
    var ins := AtTime(es, now);
    if es != [] {
      assert ins[0] == Happens(es[0], now) && ins[1..] == AtTime(es[1..], now);
      EventsRun(cfg, Step(cfg, s, ins[0]), es[1..], now);
    }
  }

  // ------------------------------------------------------------------ admissions a window apart

  ghost function ActiveJobs(c: Protocol.Core): set<JobId> {
    set j | j in c.procs && !c.procs[j].phase.AwaitingRespond? && !c.procs[j].phase.Ended?
  }

  ghost function WaitingJobs(c: Protocol.Core): set<JobId> { set j | j in c.procs && c.procs[j].phase.AwaitingRespond? }

  /** The store's counts, read off the jobs. */
  lemma CountsFollowJobs(c: Protocol.Core, st: Store.Store)
    requires Agrees(c, st)
    ensures Store.ActiveIds(st) == ActiveJobs(c) && Store.AwaitingIds(st) == WaitingJobs(c)
  {
    forall j ensures j in Store.ActiveIds(st) <==> j in ActiveJobs(c) {
      if j in st.jobs { assert Fits(c.procs[j].phase, FaceOf(st.jobs[j])); }
    }
    forall j ensures j in Store.AwaitingIds(st) <==> j in WaitingJobs(c) {
      if j in st.jobs { assert Fits(c.procs[j].phase, FaceOf(st.jobs[j])); }
    }
  }

  /** Nobody was accepted after the last thing that happened. */
  lemma NobodySince(cfg: Config, s: State, upTo: int)
    requires Metered(cfg, s) && Counted(s)
    ensures BornWithin(s.born, s.clock, upTo) == {}
  {
    hide BornWithin, Limiter.Pruned, Limiter.Newer;
    Limiter.NoneWithin(s.log, s.clock, upTo);
    assert Limiter.Within(s.log, s.clock, upTo) == |BornWithin(s.born, s.clock, upTo)|;
  }

  /** The next request, a window later. */
  function NextSubmit(cfg: Config, s: State, j: JobId): Input {
    Submit(j, Store.SelfTransfer, s.clock + cfg.rate.windowMs)
  }

  lemma JobsAreRecorded(cfg: Config, s: State)
    requires Inv(cfg, s)
    ensures Store.ActiveIds(s.store) == ActiveJobs(s.core) && Store.AwaitingIds(s.store) == WaitingJobs(s.core)
    ensures forall j :: j in s.store.jobs ==> j in s.core.procs
    ensures BornWithin(s.born, s.clock, s.clock + cfg.rate.windowMs) == {}
  {
    NobodySince(cfg, s, s.clock + cfg.rate.windowMs);
    CountsFollowJobs(s.core, s.store);
  }

  lemma AdmitsWhenRoom(cfg: Config, s: State, j: JobId)
    requires Inv(cfg, s) && j !in s.core.procs && cfg.rate.limit > 0
    requires |ActiveJobs(s.core)| < cfg.limits.maxActive && |WaitingJobs(s.core)| < cfg.limits.maxJobs
    ensures var i := NextSubmit(cfg, s, j);
      Enabled(s, i) && Step(cfg, s, i).core == Protocol.Step(s.core, Protocol.Start(j))
  {
    hide Inv, Answer, Store.ActiveIds, Store.AwaitingIds, ActiveJobs, WaitingJobs, BornWithin;
    hide Protocol.Step, Applied, Limiter.HitsAfter, Limiter.ReplyTo;
    JobsAreRecorded(cfg, s);
    AdmissionIsExact(cfg, s, j, Store.SelfTransfer, s.clock + cfg.rate.windowMs);
  }

  /** The next request is accepted, and its job and the others go on as `es` says, all at one time. */
  lemma AdmitsThen(cfg: Config, s: State, j: JobId, es: seq<Protocol.Event>) returns (ins: seq<Input>)
    requires Inv(cfg, s) && j !in s.core.procs && cfg.rate.limit > 0
    requires |ActiveJobs(s.core)| < cfg.limits.maxActive && |WaitingJobs(s.core)| < cfg.limits.maxJobs
    requires Protocol.Possible(Protocol.Step(s.core, Protocol.Start(j)), es) && forall e :: e in es ==> !e.Start?
    ensures Possible(cfg, s, ins)
    ensures After(cfg, s, ins).core == Protocol.After(Protocol.Step(s.core, Protocol.Start(j)), es)
  {
    hide Inv, ActiveJobs, WaitingJobs, Step, Enabled, Protocol.Step, Protocol.Enabled;
    var i := NextSubmit(cfg, s, j);
    AdmitsWhenRoom(cfg, s, j);
    var t := Step(cfg, s, i);
    EventsRun(cfg, t, es, t.clock);
    OneInput(cfg, s, i);
    InputsJoin(cfg, s, [i], AtTime(es, t.clock));
    ins := [i] + AtTime(es, t.clock);
  }
}
