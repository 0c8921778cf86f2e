/** How a job's record evolves over a run, and how long a job waits for its respond. */
module ServiceLifecycle {
  import opened Integers
  import opened Options
  import Pool = PoolModel
  import Protocol = JobProtocol
  import Store = StoreModel
  import opened StoreSafety
  import opened Service
  import opened ServiceSafety
  import opened ServiceRuns

  // ------------------------------------------------------------------ records only move forward

  /** From `s` to `t` the record of `id` grows, or goes; it never comes back. */
  ghost predicate Continues(s: State, t: State, id: JobId) {
    && id in t.core.procs
    && (id in t.store.jobs ==> id in s.store.jobs && Grows(s.store.jobs[id], t.store.jobs[id]))
  }

  lemma StartKeeps(c: Protocol.Core, j: JobId, id: JobId)
    requires j !in c.procs && id in c.procs
    ensures id in Protocol.Step(c, Protocol.Start(j)).procs
  {
  }

  lemma SameGrows(st: Store.Store, id: JobId)
    ensures id in st.jobs ==> Grows(st.jobs[id], st.jobs[id])
  {
  }

  lemma SubmitContinues(cfg: Config, s: State, j: JobId, mode: Store.Mode, now: int, id: JobId)
    requires Store.WellFormed(s.store) && Enabled(s, Submit(j, mode, now)) && id in s.core.procs
    ensures Continues(s, Submitted(cfg, s, j, mode, now), id)
  {
    hide Store.WellFormed, Store.Create, Store.AtCapacity, Grows, Protocol.Step;
    StartKeeps(s.core, j, id);
    SameGrows(s.store, id);
    CreateTouches(s.store, cfg.limits.retained, j, mode, now);
  }

  lemma EventContinues(cfg: Config, s: State, e: Protocol.Event, now: int, id: JobId)
    requires Inv(cfg, s) && Enabled(s, Happens(e, now)) && id in s.core.procs
    ensures Continues(s, Step(cfg, s, Happens(e, now)), id)
  {
    hide Inv, Sound, LegalRun, Final, Ops, Protocol.Step, Protocol.Enabled, PatchedAll, Moves, OnlyTouches;
    EventKeepsInv(cfg, s, e, now);
    NobodyNew(s.core, e);
    SameGrows(s.store, id);
  }

  lemma StepContinues(cfg: Config, s: State, i: Input, id: JobId)
    requires Inv(cfg, s) && Enabled(s, i) && id in s.core.procs
    ensures Continues(s, Step(cfg, s, i), id)
  {
    hide Inv, Submitted, Answer, Store.WellFormed, Grows, Protocol.Step, Protocol.Enabled, Ops, Final, Moves;
    SoundIsWellFormed(cfg, s);
    SameGrows(s.store, id);
    match i
    case Submit(j, mode, now) => SubmitContinues(cfg, s, j, mode, now, id);
    case Ask(_, _) =>
    case Happens(e, now) => EventContinues(cfg, s, e, now, id);
  }

  lemma ContinuesTwice(a: State, b: State, c: State, id: JobId)
    requires Continues(a, b, id) && Continues(b, c, id)
    ensures Continues(a, c, id)
  {
  }

  lemma {:induction false} RunContinues(cfg: Config, s: State, ins: seq<Input>, id: JobId)
    requires Inv(cfg, s) && Possible(cfg, s, ins) && id in s.core.procs
    ensures Continues(s, After(cfg, s, ins), id)
    decreases |ins|
  {
    hide Inv, Step, Enabled, Continues;
    if ins == [] {
      ContinuesHere(s, id);
    } else {
      StepContinues(cfg, s, ins[0], id);
      StepKeepsInv(cfg, s, ins[0]);
      KnownLater(s, Step(cfg, s, ins[0]), id);
      RunContinues(cfg, Step(cfg, s, ins[0]), ins[1..], id);
      ContinuesTwice(s, Step(cfg, s, ins[0]), After(cfg, s, ins), id);
    }
  }

  lemma ContinuesHere(s: State, id: JobId)
    requires id in s.core.procs
    ensures Continues(s, s, id)
  {
  }

  lemma KnownLater(s: State, t: State, id: JobId)
    requires Continues(s, t, id)
    ensures id in t.core.procs
  {
  }

  /**
   * Between any two states of a run: the state of a record only advances, no timestamp of it is rewritten, a
   * finished record never changes again, and a record goes only once its job has ended.
   */
  lemma NeverRegresses(cfg: Config, s: State, ins: seq<Input>, id: JobId)
    requires Inv(cfg, s) && Possible(cfg, s, ins) && id in s.store.jobs
    ensures var t := After(cfg, s, ins);
      && id in t.core.procs
      && (id in t.store.jobs ==> Grows(s.store.jobs[id], t.store.jobs[id]))
      && (id !in t.store.jobs ==> t.core.procs[id].phase.Ended?)
  {
    hide Inv, Possible, Step, Enabled, Grows;
    Recorded(cfg, s, id);
    RunContinues(cfg, s, ins, id);
    RunKeepsInv(cfg, s, ins);
    Present(cfg, After(cfg, s, ins), id);
  }

  lemma Recorded(cfg: Config, s: State, id: JobId)
    requires Inv(cfg, s) && id in s.store.jobs
    ensures id in s.core.procs
  {
  }

  lemma Present(cfg: Config, s: State, id: JobId)
    requires Inv(cfg, s) && id in s.core.procs
    ensures s.core.procs[id].phase.Ended? || id in s.store.jobs
  {
  }

  // ------------------------------------------------------------------ the respond budget

  /** When the respond wait of a job gives up: its own deadline or the watcher's, whichever comes first. */
  function RespondDue(cfg: Config, t: Store.Timings): int
    requires Store.ConfirmedAt in t && Store.SignSentAt in t
  {
    Min(t[Store.ConfirmedAt] + cfg.respondTimeoutMs,
            t[Store.SignSentAt] + cfg.signatureTimeoutMs + cfg.confirmTimeoutMs + cfg.respondTimeoutMs)
  }

  /**
   * Waits end within their budgets, give or take `lag`, the delay with which the process reacts; a job told to
   * stop ends its wait at once.
   */
  predicate WithinBudgets(cfg: Config, lag: nat, s: State, i: Input) {
    i.Happens? && OwnerOf(i.event).Some? && OwnerOf(i.event).value in s.store.jobs
      && OwnerOf(i.event).value in s.core.procs ==>
      var j := OwnerOf(i.event).value;
      var t := s.store.jobs[j].timings;
      match i.event
      case Signed(_) => Store.SignSentAt in t ==> i.now <= t[Store.SignSentAt] + cfg.signatureTimeoutMs + lag
      case Receipt(_, true) => Store.BroadcastAt in t ==> i.now <= t[Store.BroadcastAt] + cfg.confirmTimeoutMs + lag
      case RespondTimesOut(_) =>
        !s.core.procs[j].aborted && Store.ConfirmedAt in t && Store.SignSentAt in t ==>
          RespondDue(cfg, t) <= i.now <= RespondDue(cfg, t) + lag
      case _ => true
  }

  predicate AllWithinBudgets(cfg: Config, lag: nat, s: State, ins: seq<Input>)
    requires Possible(cfg, s, ins)
    decreases |ins|
  {
    ins == [] || (WithinBudgets(cfg, lag, s, ins[0]) && AllWithinBudgets(cfg, lag, Step(cfg, s, ins[0]), ins[1..]))
  }

  /** A respond timeout falls where the budget says, reckoned from confirmation. */
  ghost predicate OnBudget(cfg: Config, lag: nat, t: Store.Timings) {
    && Store.FinishedAt in t && Store.ConfirmedAt in t && Store.BroadcastAt in t && Store.SignatureAt in t
    && var attaching := t[Store.BroadcastAt] - t[Store.SignatureAt];
       t[Store.ConfirmedAt] + cfg.respondTimeoutMs - attaching - 2 * lag
         <= t[Store.FinishedAt] <= t[Store.ConfirmedAt] + cfg.respondTimeoutMs + lag
  }

  ghost predicate Budgeted(cfg: Config, lag: nat, j: Store.Job, aborted: bool) {
    var t := j.timings;
    && (Store.SignatureAt in t ==>
          Store.SignSentAt in t && t[Store.SignatureAt] <= t[Store.SignSentAt] + cfg.signatureTimeoutMs + lag)
    && (Store.ConfirmedAt in t ==>
          Store.BroadcastAt in t && t[Store.ConfirmedAt] <= t[Store.BroadcastAt] + cfg.confirmTimeoutMs + lag)
    && (j.failure == Some(Store.RespondTimeout) && !aborted ==> OnBudget(cfg, lag, t))
  }

  ghost predicate AllBudgeted(cfg: Config, lag: nat, s: State) {
    forall j :: j in s.store.jobs && j in s.core.procs ==> Budgeted(cfg, lag, s.store.jobs[j], s.core.procs[j].aborted)
  }

  lemma StampsBelow(t: Store.Timings, top: Store.Stamp)
    requires Ordered(t) && Top(t) == top && top != Store.FinishedAt
    ensures forall x :: Rank(x) <= Rank(top) ==> x in t
    ensures forall x :: x in t && x != Store.FinishedAt ==> Rank(x) <= Rank(top)
  {
  }

  predicate Plain(m: Move) { !m.Sign? && !m.Confirm? && m != Fail(Store.RespondTimeout) }

  lemma PlainMove(cfg: Config, lag: nat, j: Store.Job, m: Move, now: int, aborted: bool)
    requires Plain(m) && Budgeted(cfg, lag, j, aborted) && j.failure.None? && Store.FinishedAt !in j.timings
    requires StampOf(m).Some? ==> StampOf(m).value !in j.timings
    ensures Budgeted(cfg, lag, Store.Patched(j, PatchOf(m, now)), aborted)
    ensures !m.Fail? ==> Store.Patched(j, PatchOf(m, now)).failure.None?
    ensures !m.Fail? && !m.Finish? ==> Store.FinishedAt !in Store.Patched(j, PatchOf(m, now)).timings
  {
  }

  lemma SignMove(cfg: Config, lag: nat, j: Store.Job, now: int, aborted: bool)
    requires Budgeted(cfg, lag, j, aborted) && j.failure.None? && Store.SignSentAt in j.timings
    requires now <= j.timings[Store.SignSentAt] + cfg.signatureTimeoutMs + lag
    ensures Budgeted(cfg, lag, Store.Patched(j, PatchOf(Sign, now)), aborted)
  {
  }

  lemma ConfirmMove(cfg: Config, lag: nat, j: Store.Job, now: int, aborted: bool)
    requires Budgeted(cfg, lag, j, aborted) && j.failure.None? && Store.BroadcastAt in j.timings
    requires now <= j.timings[Store.BroadcastAt] + cfg.confirmTimeoutMs + lag
    ensures Budgeted(cfg, lag, Store.Patched(j, PatchOf(Confirm, now)), aborted)
  {
  }

  lemma TimeoutMove(cfg: Config, lag: nat, j: Store.Job, now: int, aborted: bool)
    requires Budgeted(cfg, lag, j, aborted) && Ordered(j.timings) && Store.ConfirmedAt in j.timings
    requires Store.SignSentAt in j.timings
    requires !aborted ==> RespondDue(cfg, j.timings) <= now <= RespondDue(cfg, j.timings) + lag
    ensures Budgeted(cfg, lag, Store.Patched(j, PatchOf(Fail(Store.RespondTimeout), now)), aborted)
  {
    assert Rank(Store.BroadcastAt) < Rank(Store.ConfirmedAt) && Rank(Store.SignatureAt) < Rank(Store.BroadcastAt);
  }

  /** Why each of a job's updates is on budget, for the updates of one event in turn. */
  lemma OneOnBudget(cfg: Config, lag: nat, s: State, e: Protocol.Event, j: JobId, m: Move, now: int)
    requires Protocol.Enabled(s.core, e) && !e.Start? && OwnerOf(e) == Some(j) && j in s.store.jobs && j in s.core.procs
    requires Moves(s.core, e) == [m] && MayMove(FaceOf(s.store.jobs[j]), m) && JobOk(s.store.jobs[j], s.clock)
    requires Budgeted(cfg, lag, s.store.jobs[j], s.core.procs[j].aborted) && WithinBudgets(cfg, lag, s, Happens(e, now))
    requires m == Fail(Store.RespondTimeout) ==> Top(s.store.jobs[j].timings) == Store.ConfirmedAt
    ensures Budgeted(cfg, lag, Store.Patched(s.store.jobs[j], PatchOf(m, now)), s.core.procs[j].aborted)
  {
    var job, aborted := s.store.jobs[j], s.core.procs[j].aborted;
    MovesAre(s.core, e);
    hide Budgeted, Fits, Protocol.Enabled, RespondDue;
    StampsBelow(job.timings, Top(job.timings));
    if m.Sign? { SignMove(cfg, lag, job, now, aborted); }
    else if m.Confirm? { ConfirmMove(cfg, lag, job, now, aborted); }
    else if m == Fail(Store.RespondTimeout) { TimeoutMove(cfg, lag, job, now, aborted); }
    else { PlainMove(cfg, lag, job, m, now, aborted); }
  }

  lemma PairOnBudget(cfg: Config, lag: nat, j: Store.Job, first: Move, second: Move, now: int, aborted: bool)
    requires first.Request? || first.Respond?
    requires Plain(second) && !second.Sign? && StampOf(second) != StampOf(first)
    requires Budgeted(cfg, lag, j, aborted) && j.failure.None? && Store.FinishedAt !in j.timings
    requires StampOf(first).value !in j.timings && (StampOf(second).Some? ==> StampOf(second).value !in j.timings)
    ensures Budgeted(cfg, lag, PatchedAll(j, [first, second], now), aborted)
  {
    var mid := Store.Patched(j, PatchOf(first, now));
    PlainMove(cfg, lag, j, first, now, aborted);
    PlainMove(cfg, lag, mid, second, now, aborted);
    assert [first, second][1..] == [second];
    assert PatchedAll(mid, [second], now) == Store.Patched(mid, PatchOf(second, now));
  }

  lemma MovesAre(c: Protocol.Core, e: Protocol.Event)
    requires Protocol.Enabled(c, e)
    ensures var moves := Moves(c, e);
      || |moves| <= 1
      || moves == [Request, Await] || moves == [Respond, Finish] || moves == [Respond, Fail(Store.RespondMismatch)]
    ensures Moves(c, e) == [Fail(Store.RespondTimeout)] ==> e.RespondTimesOut?
  {
  }

  /** The updates of one event keep the record on budget. */
  lemma OwnOnBudget(cfg: Config, lag: nat, s: State, e: Protocol.Event, j: JobId, now: int)
    requires Protocol.Enabled(s.core, e) && !e.Start? && OwnerOf(e) == Some(j) && j in s.store.jobs && j in s.core.procs
    requires JobOk(s.store.jobs[j], s.clock) && Fits(s.core.procs[j].phase, FaceOf(s.store.jobs[j]))
    requires Budgeted(cfg, lag, s.store.jobs[j], s.core.procs[j].aborted) && WithinBudgets(cfg, lag, s, Happens(e, now))
    ensures Budgeted(cfg, lag, PatchedAll(s.store.jobs[j], Moves(s.core, e), now), s.core.procs[j].aborted)
  {
    var job, moves := s.store.jobs[j], Moves(s.core, e);
    AllowedHere(s.core, e, j, FaceOf(job));
    MovesAre(s.core, e);
    StampsBelow(job.timings, Top(job.timings));
    hide Budgeted, Moves, Fits, WithinBudgets, Protocol.Enabled;
    if |moves| == 1 {
      OneOnBudget(cfg, lag, s, e, j, moves[0], now);
      assert moves == [moves[0]];
    } else if |moves| == 2 {
      PairOnBudget(cfg, lag, job, moves[0], moves[1], now, s.core.procs[j].aborted);
    }
  }

  /** The updates are allowed one by one, and a respond timeout comes right after the confirmation. */
  lemma AllowedHere(c: Protocol.Core, e: Protocol.Event, j: JobId, f: Face)
    requires Protocol.Enabled(c, e) && !e.Start? && OwnerOf(e) == Some(j) && Fits(Protocol.PhaseOf(c, j), f)
    ensures Moves(c, e) != [] ==> MayMove(f, Moves(c, e)[0])
    ensures |Moves(c, e)| == 2 ==> f.top == (if e.RequestSent? then Store.LeaseAcquiredAt else Store.ConfirmedAt)
    ensures e.RespondTimesOut? ==> f.top == Store.ConfirmedAt
  {
    OwnerFits(c, e, j, f);
  }

  lemma AbortedGrows(c: Protocol.Core, e: Protocol.Event, k: JobId)
    requires Protocol.Enabled(c, e) && !e.Start? && k in c.procs
    ensures k in Protocol.Step(c, e).procs
    ensures c.procs[k].aborted ==> Protocol.Step(c, e).procs[k].aborted
  {
    if Protocol.Resumes(e) { ResumeTellsNobody(c, e, k); }
  }

  lemma CloseTellsNobody(c: Protocol.Core, k: JobId, ph: Protocol.Phase, j: JobId)
    requires k in c.procs && j in c.procs
    ensures j in Protocol.Close(c, k, ph).procs && Protocol.Close(c, k, ph).procs[j].aborted == c.procs[j].aborted
  {
    hide Pool.Release;
  }

  /** No segment of a job tells anybody to stop. */
  lemma ResumeTellsNobody(c: Protocol.Core, e: Protocol.Event, k: JobId)
    requires Protocol.Resumes(e) && Protocol.Enabled(c, e) && k in c.procs
    ensures k in Protocol.Resume(c, e).procs && Protocol.Resume(c, e).procs[k].aborted == c.procs[k].aborted
  {
    hide Protocol.Close;
    forall d: Protocol.Core, ph | d.procs == c.procs && e.job in d.procs
      ensures k in Protocol.Close(d, e.job, ph).procs
        && Protocol.Close(d, e.job, ph).procs[k].aborted == d.procs[k].aborted
    {
      CloseTellsNobody(d, e.job, ph, k);
    }
  }

  lemma LessStrict(cfg: Config, lag: nat, j: Store.Job, before: bool, after: bool)
    requires Budgeted(cfg, lag, j, before) && (before ==> after)
    ensures Budgeted(cfg, lag, j, after)
  {
  }

  lemma RecordAfter(l: Store.Limits, clock: int, st: Store.Store, e: Protocol.Event, c: Protocol.Core, now: int,
      k: JobId)
    requires Protocol.Enabled(c, e) && Follows(l, clock, st, e, c, now) && k in Final(st, l, Ops(c, e, now)).jobs
    ensures k in st.jobs
    ensures Final(st, l, Ops(c, e, now)).jobs[k]
      == if OwnerOf(e) == Some(k) then PatchedAll(st.jobs[k], Moves(c, e), now) else st.jobs[k]
  {
    hide Sound, LegalRun, Final, Ops, PatchedAll, Moves, Grows, Protocol.Enabled;
  }

  lemma OldBudget(cfg: Config, lag: nat, s: State, k: JobId)
    requires AllBudgeted(cfg, lag, s)
    ensures k in s.store.jobs && k in s.core.procs ==> Budgeted(cfg, lag, s.store.jobs[k], s.core.procs[k].aborted)
  {
  }

  lemma EventOnBudget(cfg: Config, lag: nat, s: State, e: Protocol.Event, now: int, k: JobId)
    requires Inv(cfg, s) && AllBudgeted(cfg, lag, s)
    requires Enabled(s, Happens(e, now)) && WithinBudgets(cfg, lag, s, Happens(e, now))
    requires k in Step(cfg, s, Happens(e, now)).store.jobs && k in Step(cfg, s, Happens(e, now)).core.procs
    ensures var t := Step(cfg, s, Happens(e, now)); Budgeted(cfg, lag, t.store.jobs[k], t.core.procs[k].aborted)
  {
    hide Inv, AllBudgeted, Follows, OwnerOf, Protocol.Step, Protocol.Enabled, WithinBudgets, Budgeted, Fits, JobOk;
    hide LegalRun, Sound, Moves, Ops, PatchedAll, Final, Grows;
    EventKeepsInv(cfg, s, e, now);
    NobodyNew(s.core, e);
    AbortedGrows(s.core, e, k);
    StoreFits(cfg, s, k);
    OldBudget(cfg, lag, s, k);
    RecordAfter(cfg.limits, s.clock, s.store, e, s.core, now, k);
    var t := Step(cfg, s, Happens(e, now));
    if OwnerOf(e) == Some(k) {
      OwnOnBudget(cfg, lag, s, e, k, now);
    }
    LessStrict(cfg, lag, t.store.jobs[k], s.core.procs[k].aborted, t.core.procs[k].aborted);
  }

  lemma StoreFits(cfg: Config, s: State, k: JobId)
    requires Inv(cfg, s)
    ensures k in s.store.jobs ==>
      k in s.core.procs && JobOk(s.store.jobs[k], s.clock) && Fits(s.core.procs[k].phase, FaceOf(s.store.jobs[k]))
  {
  }

  lemma SubmitOnBudget(cfg: Config, lag: nat, s: State, j: JobId, mode: Store.Mode, now: int)
    requires Store.WellFormed(s.store) && AllBudgeted(cfg, lag, s) && Enabled(s, Submit(j, mode, now))
    requires forall k :: k in s.store.jobs ==> k in s.core.procs
    ensures AllBudgeted(cfg, lag, Submitted(cfg, s, j, mode, now))
  {
    hide AllBudgeted, Store.WellFormed, Store.Create, Store.AtCapacity, Protocol.Step, NewJob, OnlyTouches;
    if Answer(cfg, s, j, now).Accepted? {
      CreateTouches(s.store, cfg.limits.retained, j, mode, now);
      StartIsQuiet(s.core, j);
      NewcomerOnBudget(cfg, lag, s, Submitted(cfg, s, j, mode, now), j, mode, now);
    } else {
      SameOnBudget(cfg, lag, s, Submitted(cfg, s, j, mode, now));
    }
  }

  lemma SameOnBudget(cfg: Config, lag: nat, s: State, t: State)
    requires AllBudgeted(cfg, lag, s) && t.store == s.store && t.core == s.core
    ensures AllBudgeted(cfg, lag, t)
  {
  }

  lemma NewcomerOnBudget(cfg: Config, lag: nat, s: State, t: State, j: JobId, mode: Store.Mode, now: int)
    requires AllBudgeted(cfg, lag, s) && OnlyTouches(s.store, t.store, j)
    requires forall k :: k in s.store.jobs ==> k in s.core.procs
    requires j in t.store.jobs && t.store.jobs[j] == NewJob(mode, now) && j in t.core.procs && !t.core.procs[j].aborted
    requires forall k :: k in s.core.procs ==> k in t.core.procs && t.core.procs[k] == s.core.procs[k]
    ensures AllBudgeted(cfg, lag, t)
  {
    NewJobOnBudget(cfg, lag, mode, now);
    hide Budgeted, NewJob;
  }

  lemma NewJobOnBudget(cfg: Config, lag: nat, mode: Store.Mode, now: int)
    ensures Budgeted(cfg, lag, NewJob(mode, now), false)
  {
  }

  lemma StartIsQuiet(c: Protocol.Core, j: JobId)
    requires j !in c.procs
    ensures var d := Protocol.Step(c, Protocol.Start(j));
      && (j in d.procs && !d.procs[j].aborted)
      && forall k :: k in c.procs ==> k in d.procs && d.procs[k] == c.procs[k]
  {
  }

  lemma StepOnBudget(cfg: Config, lag: nat, s: State, i: Input)
    requires Inv(cfg, s) && AllBudgeted(cfg, lag, s) && Enabled(s, i) && WithinBudgets(cfg, lag, s, i)
    ensures AllBudgeted(cfg, lag, Step(cfg, s, i))
  {
    match i
    case Submit(j, mode, now) =>
      SoundIsWellFormed(cfg, s);
      AllKnown(cfg, s);
      hide Inv, Store.WellFormed, AllBudgeted, Submitted;
      SubmitOnBudget(cfg, lag, s, j, mode, now);
    case Ask(_, _) =>
    case Happens(e, now) =>
      hide Inv, WithinBudgets, Protocol.Step, Protocol.Enabled, Ops, Final, Budgeted;
      var t := Step(cfg, s, i);
      forall k | k in t.store.jobs && k in t.core.procs
        ensures Budgeted(cfg, lag, t.store.jobs[k], t.core.procs[k].aborted)
      {
        EventOnBudget(cfg, lag, s, e, now, k);
      }
  }

  lemma AllKnown(cfg: Config, s: State)
    requires Inv(cfg, s)
    ensures forall k :: k in s.store.jobs ==> k in s.core.procs
  {
  }

  lemma {:induction false} RunOnBudget(cfg: Config, lag: nat, s: State, ins: seq<Input>)
    requires Inv(cfg, s) && AllBudgeted(cfg, lag, s) && Possible(cfg, s, ins) && AllWithinBudgets(cfg, lag, s, ins)
    ensures AllBudgeted(cfg, lag, After(cfg, s, ins))
    decreases |ins|
  {
    hide Inv, Step, Enabled, WithinBudgets, AllBudgeted;
    if ins != [] {
      StepOnBudget(cfg, lag, s, ins[0]);
      StepKeepsInv(cfg, s, ins[0]);
      RunOnBudget(cfg, lag, Step(cfg, s, ins[0]), ins[1..]);
    }
  }

  /**
   * The respond budget: in every run within the budgets a job recorded as `respond_timeout` that was not told to
   * stop gave up between `confirmedAt + respondTimeoutMs` less the time spent attaching and broadcasting, and that
   * moment itself, however slow the signing and the confirmation were within their own budgets (`lag` aside).
   */
  lemma RespondBudget(cfg: Config, lag: nat, s: State, ins: seq<Input>, id: JobId)
    requires Init(s) && Possible(cfg, s, ins) && AllWithinBudgets(cfg, lag, s, ins)
    requires var t := After(cfg, s, ins);
      id in t.store.jobs && t.store.jobs[id].failure == Some(Store.RespondTimeout)
      && id in t.core.procs && !t.core.procs[id].aborted
    ensures OnBudget(cfg, lag, After(cfg, s, ins).store.jobs[id].timings)
  {
    InitInv(cfg, s);
    assert AllBudgeted(cfg, lag, s);
    hide Inv, Init, Possible, AllWithinBudgets;
    RunOnBudget(cfg, lag, s, ins);
    var t := After(cfg, s, ins);
    assert Budgeted(cfg, lag, t.store.jobs[id], t.core.procs[id].aborted);
  }
}
