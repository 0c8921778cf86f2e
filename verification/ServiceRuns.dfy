/** What every run of the service keeps, and the theorems that follow from it. */
module ServiceRuns {
  import Protocol = JobProtocol
  import Store = StoreModel
  import opened StoreSafety
  import Limiter = RateLimiter
  import opened Service
  import opened ServiceSafety
  import LeaseSafety

  /** The jobs accepted in `(from, to]`. */
  ghost function BornWithin(born: map<JobId, int>, from: int, to: int): set<JobId> {
    set j | j in born && from < born[j] <= to
  }

  /** Every accepted hit started one job, at that time. */
  ghost predicate Counted(s: State) {
    && s.born.Keys == s.core.procs.Keys
    && (forall from, to :: Limiter.Within(s.log, from, to) == |BornWithin(s.born, from, to)|)
    && (forall j :: j in s.store.jobs ==>
          j in s.born && Store.AcceptedAt in s.store.jobs[j].timings
            && s.store.jobs[j].timings[Store.AcceptedAt] == s.born[j])
  }

  ghost predicate Metered(cfg: Config, s: State) {
    Limiter.Refines(cfg.rate, s.hits, s.log, s.clock) && (cfg.rate.limit == 0 ==> s.log == [])
  }

  ghost predicate Inv(cfg: Config, s: State) {
    && LeaseSafety.Leases(s.core)
    && Sound(s.store, cfg.limits, s.clock)
    && Agrees(s.core, s.store)
    && Metered(cfg, s)
    && Counted(s)
  }

  lemma InitInv(cfg: Config, s: State)
    requires Init(s)
    ensures Inv(cfg, s)
  {
    LeaseSafety.InitLeases(s.core);
    Limiter.FreshRefines(cfg.rate, s.clock);
    assert forall from, to :: BornWithin(s.born, from, to) == {};
  }

  // ------------------------------------------------------------------ the limiter

  lemma CallKeepsMetered(cfg: Config, s: State, call: Limiter.Call)
    requires Metered(cfg, s) && s.clock <= call.now
    ensures Metered(cfg, s.(hits := Limiter.HitsAfter(cfg.rate, s.hits, call),
                            log := Limiter.LogAfter(cfg.rate, s.log, call), clock := call.now))
    ensures Limiter.ReplyTo(cfg.rate, s.hits, call) == Limiter.FullReply(cfg.rate, s.log, call)
  {
    Limiter.StepRefines(cfg.rate, s.hits, s.log, s.clock, call);
  }

  lemma WaitingKeepsMetered(cfg: Config, s: State, now: int)
    requires Metered(cfg, s) && s.clock <= now
    ensures Metered(cfg, s.(clock := now))
  {
  }

  lemma SubmitKeepsMetered(cfg: Config, s: State, j: JobId, mode: Store.Mode, now: int)
    requires Metered(cfg, s) && s.clock <= now && j !in s.core.procs
    ensures Metered(cfg, Submitted(cfg, s, j, mode, now))
  {
    hide Metered, Limiter.HitsAfter, Limiter.Pruned, Applied, Protocol.Step, Store.AtCapacity;
    var call := Limiter.TryAcquire(now);
    CallKeepsMetered(cfg, s, call);
    var mid := s.(hits := Limiter.HitsAfter(cfg.rate, s.hits, call), log := Limiter.LogAfter(cfg.rate, s.log, call),
      clock := now);
    CallKeepsMetered(cfg, mid, Limiter.RetryAfter(now));
    WaitingKeepsMetered(cfg, s, now);
    MeteredIgnores(cfg, s, j, mode, now);
  }

  /** The limiter does not look at the jobs. */
  lemma MeteredIgnores(cfg: Config, s: State, j: JobId, mode: Store.Mode, now: int)
    requires j !in s.core.procs
    ensures Metered(cfg, s.(hits := Limiter.HitsAfter(cfg.rate, s.hits, Limiter.TryAcquire(now)),
      log := s.log + [now], clock := now))
      ==> Metered(cfg, Admitted(cfg, s, j, mode, now))
  {
  }

  // ------------------------------------------------------------------ who was born when

  lemma BirthCounts(log: seq<int>, born: map<JobId, int>, j: JobId, now: int, from: int, to: int)
    requires j !in born && Limiter.Within(log, from, to) == |BornWithin(born, from, to)|
    ensures Limiter.Within(log + [now], from, to) == |BornWithin(born[j := now], from, to)|
  {
    Limiter.WithinAppend(log, [now], from, to);
    assert BornWithin(born[j := now], from, to)
      == if from < now <= to then BornWithin(born, from, to) + {j} else BornWithin(born, from, to);
  }

  lemma BirthIsRecorded(st: Store.Store, next: Store.Store, born: map<JobId, int>, j: JobId, mode: Store.Mode, now: int)
    requires forall k :: k in st.jobs ==>
      k in born && Store.AcceptedAt in st.jobs[k].timings && st.jobs[k].timings[Store.AcceptedAt] == born[k]
    requires OnlyTouches(st, next, j) && j in next.jobs && next.jobs[j] == NewJob(mode, now)
    ensures forall k :: k in next.jobs ==>
      k in born[j := now] && Store.AcceptedAt in next.jobs[k].timings
      && next.jobs[k].timings[Store.AcceptedAt] == born[j := now][k]
  {
  }

  lemma AdmissionCounts(cfg: Config, s: State, j: JobId, mode: Store.Mode, now: int)
    requires Counted(s) && j !in s.core.procs && j !in s.store.jobs && Store.WellFormed(s.store)
    ensures Counted(Admitted(cfg, s, j, mode, now))
  {
    hide Store.WellFormed, Store.Create, OnlyTouches, NewJob, BornWithin;
    CreateTouches(s.store, cfg.limits.retained, j, mode, now);
    BirthIsRecorded(s.store, Store.Create(s.store, cfg.limits.retained, j, mode, now), s.born, j, mode, now);
    forall from, to ensures Limiter.Within(s.log + [now], from, to) == |BornWithin(s.born[j := now], from, to)| {
      BirthCounts(s.log, s.born, j, now, from, to);
    }
  }

  // ------------------------------------------------------------------ admission

  lemma NewcomerAgrees(c: Protocol.Core, d: Protocol.Core, st: Store.Store, next: Store.Store, j: JobId)
    requires Agrees(c, st) && OnlyTouches(st, next, j) && j in next.jobs
    requires d.procs.Keys == c.procs.Keys + {j} && forall k :: k in c.procs && k != j ==> d.procs[k] == c.procs[k]
    requires Fits(d.procs[j].phase, FaceOf(next.jobs[j]))
    ensures Agrees(d, next)
  {
    forall k: JobId | k in next.jobs ensures k in d.procs && Fits(d.procs[k].phase, FaceOf(next.jobs[k])) {
      hide Fits, FaceOf;
    }
    forall k: JobId | k in d.procs && !d.procs[k].phase.Ended? ensures k in next.jobs {
      if k != j { assert Fits(c.procs[k].phase, FaceOf(st.jobs[k])); }
    }
    hide Fits, FaceOf, OnlyTouches;
  }

  lemma AdmissionAgrees(cfg: Config, s: State, j: JobId, mode: Store.Mode, now: int)
    requires Agrees(s.core, s.store) && j !in s.core.procs && j !in s.store.jobs && Store.WellFormed(s.store)
    ensures Agrees(Admitted(cfg, s, j, mode, now).core, Admitted(cfg, s, j, mode, now).store)
  {
    hide Agrees, OnlyTouches, Store.WellFormed, Store.Create;
    var t := Admitted(cfg, s, j, mode, now);
    CreateTouches(s.store, cfg.limits.retained, j, mode, now);
    assert FaceOf(NewJob(mode, now)) == Face(Store.Pending, Store.AcceptedAt);
    NewcomerAgrees(s.core, t.core, s.store, t.store, j);
  }

  lemma AdmissionIsSound(cfg: Config, s: State, j: JobId, mode: Store.Mode, now: int)
    requires LeaseSafety.Leases(s.core) && Sound(s.store, cfg.limits, s.clock) && s.clock <= now
    requires j !in s.core.procs && j !in s.store.jobs && Answer(cfg, s, j, now).Accepted?
    ensures var t := Admitted(cfg, s, j, mode, now); LeaseSafety.Leases(t.core) && Sound(t.store, cfg.limits, t.clock)
  {
    hide LeaseSafety.Leases, Sound, Applied, Protocol.Step, Limiter.ReplyTo, Limiter.HitsAfter;
    LeaseSafety.StepKeepsLeases(s.core, Protocol.Start(j));
    OpIsSound(s.store, cfg.limits, s.clock, Admit(j, mode, now));
  }

  lemma AdmissionKeepsInv(cfg: Config, s: State, j: JobId, mode: Store.Mode, now: int)
    requires Inv(cfg, s) && s.clock <= now && j !in s.core.procs && j !in s.store.jobs
      && Answer(cfg, s, j, now).Accepted?
    ensures Inv(cfg, Submitted(cfg, s, j, mode, now))
  {
    SoundIsWellFormed(cfg, s);
    hide LeaseSafety.Leases, Agrees, Metered, Counted, Store.WellFormed, Sound, Admitted, Answer;
    AdmissionIsSound(cfg, s, j, mode, now);
    AdmissionAgrees(cfg, s, j, mode, now);
    SubmitKeepsMetered(cfg, s, j, mode, now);
    AdmissionCounts(cfg, s, j, mode, now);
  }

  lemma SoundIsWellFormed(cfg: Config, s: State)
    requires Inv(cfg, s)
    ensures Store.WellFormed(s.store)
  {
  }

  lemma HasLeases(cfg: Config, s: State)
    requires Inv(cfg, s)
    ensures LeaseSafety.Leases(s.core)
  {
  }

  lemma SameJobsCounted(s: State, t: State)
    requires Counted(s) && t.born == s.born && t.log == s.log && t.core == s.core && t.store == s.store
    ensures Counted(t)
  {
  }

  lemma RefusalKeepsInv(cfg: Config, s: State, j: JobId, mode: Store.Mode, now: int)
    requires Inv(cfg, s) && s.clock <= now && j !in s.core.procs && !Answer(cfg, s, j, now).Accepted?
    ensures Inv(cfg, Submitted(cfg, s, j, mode, now))
  {
    hide LeaseSafety.Leases, Agrees, Metered, Counted, Sound;
    LaterIsSound(s.store, cfg.limits, s.clock, now);
    SubmitKeepsMetered(cfg, s, j, mode, now);
    SameJobsCounted(s, Submitted(cfg, s, j, mode, now));
  }

  lemma AskKeepsInv(cfg: Config, s: State, call: Limiter.Call, now: int)
    requires Inv(cfg, s) && Enabled(s, Ask(call, now))
    ensures Inv(cfg, Step(cfg, s, Ask(call, now)))
  {
    hide LeaseSafety.Leases, Agrees, Metered, Counted, Sound;
    LaterIsSound(s.store, cfg.limits, s.clock, now);
    CallKeepsMetered(cfg, s, call);
    SameJobsCounted(s, Step(cfg, s, Ask(call, now)));
  }

  // ------------------------------------------------------------------ events

  lemma EventCounts(cfg: Config, s: State, e: Protocol.Event, now: int)
    requires Counted(s) && Enabled(s, Happens(e, now))
    requires Follows(cfg.limits, s.clock, s.store, e, s.core, now)
    requires Step(cfg, s, Happens(e, now)).core.procs.Keys == s.core.procs.Keys
    ensures Counted(Step(cfg, s, Happens(e, now)))
  {
    hide Protocol.Step, Protocol.Enabled, Sound, LegalRun, Ops, Final;
    var next := Final(s.store, cfg.limits, Ops(s.core, e, now));
    forall j | j in next.jobs
      ensures j in s.born && Store.AcceptedAt in next.jobs[j].timings
        && next.jobs[j].timings[Store.AcceptedAt] == s.born[j]
    {
      assert OwnerOf(e).Some? ==> Grows(s.store.jobs[j], next.jobs[j]);
    }
  }

  lemma NobodyNew(c: Protocol.Core, e: Protocol.Event)
    requires Protocol.Enabled(c, e) && !e.Start?
    ensures Protocol.Step(c, e).procs.Keys == c.procs.Keys
  {
    if Protocol.Resumes(e) { ResumeMoves(c, e); }
  }

  lemma EventKeepsInv(cfg: Config, s: State, e: Protocol.Event, now: int)
    requires Inv(cfg, s) && Enabled(s, Happens(e, now))
    ensures Inv(cfg, Step(cfg, s, Happens(e, now)))
    ensures Follows(cfg.limits, s.clock, s.store, e, s.core, now)
  {
    hide LeaseSafety.Leases, Agrees, Metered, Counted, Sound, Protocol.Step, Protocol.Enabled, Ops, LegalRun;
    LeaseSafety.StepKeepsLeases(s.core, e);
    EventFollows(s.core, s.store, cfg.limits, s.clock, e, now);
    NobodyNew(s.core, e);
    EventCounts(cfg, s, e, now);
    MeteredAnyway(cfg, s, Step(cfg, s, Happens(e, now)));
  }

  lemma MeteredAnyway(cfg: Config, s: State, t: State)
    requires Metered(cfg, s) && t.hits == s.hits && t.log == s.log && s.clock <= t.clock
    ensures Metered(cfg, t)
  {
  }

  lemma StepKeepsInv(cfg: Config, s: State, i: Input)
    requires Inv(cfg, s) && Enabled(s, i)
    ensures Inv(cfg, Step(cfg, s, i))
  {
    hide Inv, Submitted, Answer, Protocol.Enabled;
    match i
    case Submit(j, mode, now) =>
      if Answer(cfg, s, j, now).Accepted? {
        AdmissionKeepsInv(cfg, s, j, mode, now);
      } else {
        RefusalKeepsInv(cfg, s, j, mode, now);
      }
    case Ask(call, now) => AskKeepsInv(cfg, s, call, now);
    case Happens(e, now) => EventKeepsInv(cfg, s, e, now);
  }

  lemma {:induction false} RunKeepsInv(cfg: Config, s: State, ins: seq<Input>)
    requires Inv(cfg, s) && Possible(cfg, s, ins)
    ensures Inv(cfg, After(cfg, s, ins))
    decreases |ins|
  {
    hide Inv, Step, Enabled;
    if ins != [] {
      StepKeepsInv(cfg, s, ins[0]);
      RunKeepsInv(cfg, Step(cfg, s, ins[0]), ins[1..]);
    }
  }
}
