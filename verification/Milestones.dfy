/**
 * When things happened to a job. Every timestamp of a record is the time of one step of the run, so each named
 * duration is the time between two of them.
 */
module Milestones {
  import opened Options
  import Protocol = JobProtocol
  import Store = StoreModel
  import Limiter = RateLimiter
  import opened StoreSafety
  import opened Service
  import opened ServiceSafety
  import opened ServiceRuns
  import opened ServiceLifecycle
  import ShutdownRecords
  import opened Endings

  /** The step is the last of its job: it records the ending at once, or the rejection is caught. */
  ghost predicate Finishes(c: Protocol.Core, e: Protocol.Event, j: JobId)
    requires Protocol.Enabled(c, e)
  {
    || e == Protocol.Caught(j)
    || Decides(c, e, j, Success)
    || Decides(c, e, j, Failure(Store.RespondMismatch))
    || Decides(c, e, j, Failure(Store.RespondTimeout))
    || Decides(c, e, j, Failure(Store.TransactionReverted))
    || Decides(c, e, j, Failure(Store.ConfirmationTimeout))
    || Decides(c, e, j, Failure(Store.BroadcastFailed))
    || Decides(c, e, j, Failure(Store.DerivationMismatch))
    || Decides(c, e, j, Failure(Store.SignatureTimeout))
    || Decides(c, e, j, Failure(Store.PreflightUnderfunded))
  }

  /** The step gives job `j` its address. */
  predicate GetsAddress(c: Protocol.Core, e: Protocol.Event, j: JobId)
    requires Protocol.Enabled(c, e)
  {
    e == Protocol.LeaseSettles(j) && c.pool.settled[c.procs[j].ticket.value].Granted?
  }

  /** The step that a timestamp of job `j` is named after. */
  ghost predicate Reaches(c: Protocol.Core, e: Protocol.Event, j: JobId, x: Store.Stamp)
    requires Protocol.Enabled(c, e)
  {
    match x
    case AcceptedAt => false
    case LeaseAcquiredAt => GetsAddress(c, e, j)
    case SignSentAt => e == Protocol.RequestSent(j)
    case SignatureAt => e == Protocol.Signed(j)
    case BroadcastAt => e == Protocol.SendReturns(j)
    case ConfirmedAt => e == Protocol.Receipt(j, true)
    case RespondedAt => e == Protocol.Responded(j, true) || e == Protocol.Responded(j, false)
    case FinishedAt => Finishes(c, e, j)
  }

  predicate Accepts(cfg: Config, s: State, i: Input, j: JobId) {
    i.Submit? && i.job == j && Answer(cfg, s, j, i.now).Accepted?
  }

  ghost predicate InputReaches(cfg: Config, s: State, i: Input, j: JobId, x: Store.Stamp)
    requires Enabled(s, i)
  {
    if x.AcceptedAt? then Accepts(cfg, s, i, j) else i.Happens? && Reaches(s.core, i.event, j, x)
  }

  /** When a run first takes the step. */
  ghost function TimeOf(cfg: Config, s: State, ins: seq<Input>, j: JobId, x: Store.Stamp): Option<int>
    requires Possible(cfg, s, ins)
    decreases |ins|
  {
    if ins == [] then None
    else if InputReaches(cfg, s, ins[0], j, x) then Some(ins[0].now)
    else TimeOf(cfg, Step(cfg, s, ins[0]), ins[1..], j, x)
  }

  // ------------------------------------------------------------------ the stamps of one step

  predicate StampsIn(moves: seq<Move>, x: Store.Stamp) {
    (|moves| >= 1 && StampOf(moves[0]) == Some(x)) || (|moves| >= 2 && StampOf(moves[1]) == Some(x))
  }

  function StampIn(t: Store.Timings, x: Store.Stamp): Option<int> { if x in t then Some(t[x]) else None }

  lemma UpdatesStamp(r: Store.Job, moves: seq<Move>, now: int, x: Store.Stamp)
    requires |moves| <= 2
    ensures StampIn(PatchedAll(r, moves, now).timings, x)
      == if StampsIn(moves, x) then Some(now) else StampIn(r.timings, x)
  {
    hide PatchedAll, PatchOf, StampOf;
    if moves == [] {
      NoPatch(r, now);
    } else if |moves| == 1 {
      OnePatch(r, moves[0], now);
      PatchStamps(r, moves[0], now, x);
      assert moves == [moves[0]];
    } else {
      TwoPatches(r, moves[0], moves[1], now);
      PatchStamps(r, moves[0], now, x);
      PatchStamps(Store.Patched(r, PatchOf(moves[0], now)), moves[1], now, x);
      assert moves == [moves[0], moves[1]];
    }
  }

  lemma NoPatch(r: Store.Job, now: int)
    ensures PatchedAll(r, [], now) == r
  {
  }

  lemma PatchStamps(r: Store.Job, m: Move, now: int, x: Store.Stamp)
    ensures StampIn(Store.Patched(r, PatchOf(m, now)).timings, x)
      == if StampOf(m) == Some(x) then Some(now) else StampIn(r.timings, x)
  {
    MoveStamps(r, m, now);
  }

  lemma MovesStamp(c: Protocol.Core, e: Protocol.Event, j: JobId, x: Store.Stamp)
    requires Protocol.Enabled(c, e) && !e.Start? && OwnerOf(e) == Some(j) && j in c.procs
    ensures StampsIn(Moves(c, e), x) <==> Reaches(c, e, j, x)
  {
    if Protocol.Resumes(e) { ResumeMovesStamp(c, e, x); } else { WalkMovesStamp(c, e, j, x); }
  }

  lemma WalkMovesStamp(c: Protocol.Core, e: Protocol.Event, j: JobId, x: Store.Stamp)
    requires Protocol.Enabled(c, e) && !e.Start? && OwnerOf(e) == Some(j) && j in c.procs && !Protocol.Resumes(e)
    ensures StampsIn(Moves(c, e), x) <==> Reaches(c, e, j, x)
  {
  }

  lemma ResumeMovesStamp(c: Protocol.Core, e: Protocol.Event, x: Store.Stamp)
    requires Protocol.Resumes(e) && Protocol.Enabled(c, e)
    ensures StampsIn(Moves(c, e), x) <==> Reaches(c, e, e.job, x)
  {
    if !x.FinishedAt? { StagesStamp(c, e, x); }
    else if BeforeBroadcast(e) { EarlyFinish(c, e); }
    else if OfBroadcast(e) { BroadcastFinish(c, e); }
    else { LateFinish(c, e); }
  }

  lemma StagesStamp(c: Protocol.Core, e: Protocol.Event, x: Store.Stamp)
    requires Protocol.Resumes(e) && Protocol.Enabled(c, e) && !x.FinishedAt?
    ensures StampsIn(Moves(c, e), x) <==> Reaches(c, e, e.job, x)
  {
    hide Finishes;
  }

  lemma EarlyFinish(c: Protocol.Core, e: Protocol.Event)
    requires BeforeBroadcast(e) && Protocol.Enabled(c, e)
    ensures StampsIn(Moves(c, e), Store.FinishedAt) <==> Finishes(c, e, e.job)
  {
  }

  lemma BroadcastFinish(c: Protocol.Core, e: Protocol.Event)
    requires OfBroadcast(e) && Protocol.Enabled(c, e)
    ensures StampsIn(Moves(c, e), Store.FinishedAt) <==> Finishes(c, e, e.job)
  {
  }

  lemma LateFinish(c: Protocol.Core, e: Protocol.Event)
    requires Protocol.Resumes(e) && Protocol.Enabled(c, e) && !BeforeBroadcast(e) && !OfBroadcast(e)
    ensures StampsIn(Moves(c, e), Store.FinishedAt) <==> Finishes(c, e, e.job)
  {
  }

  lemma OthersReach(c: Protocol.Core, e: Protocol.Event, j: JobId, x: Store.Stamp)
    requires Protocol.Enabled(c, e) && OwnerOf(e) != Some(j)
    ensures !Reaches(c, e, j, x)
  {
    hide Decides, Protocol.Enabled, Finishes;
    if x.FinishedAt? { OthersFinish(c, e, j); }
  }

  lemma OthersFinish(c: Protocol.Core, e: Protocol.Event, j: JobId)
    requires Protocol.Enabled(c, e) && OwnerOf(e) != Some(j)
    ensures !Finishes(c, e, j)
  {
    hide Protocol.Enabled, Decides;
    forall y: Ending | RecordedAtOnce(y) ensures !Decides(c, e, j, y) { OtherEndsNothing(c, e, j, y); }
  }

  lemma OtherEndsNothing(c: Protocol.Core, e: Protocol.Event, j: JobId, y: Ending)
    requires Protocol.Enabled(c, e) && OwnerOf(e) != Some(j) && RecordedAtOnce(y)
    ensures !Decides(c, e, j, y)
  {
    hide Protocol.Enabled, Protocol.PhaseOf, ShutdownRecords.StopsAtCheck, ShutdownRecords.IsQueued;
  }

  /** A stamp is written once. */
  lemma WrittenOnce(r: Store.Job, moves: seq<Move>, clock: int, x: Store.Stamp)
    requires JobOk(r, clock) && MayAll(FaceOf(r), moves) && StampsIn(moves, x) && |moves| <= 2
    requires |moves| == 2 ==> StampOf(moves[1]).None? || StampOf(moves[1]) == Some(Store.FinishedAt)
    ensures x !in r.timings
  {
    if StampOf(moves[0]) == Some(x) {
      MoveMayStamp(r, moves[0]);
      StampIsNew(r, x);
    }
  }

  lemma StampIsNew(r: Store.Job, x: Store.Stamp)
    requires Ordered(r.timings) && (x == Store.FinishedAt || Rank(x) == Rank(Top(r.timings)) + 1)
    ensures x != Store.FinishedAt ==> x !in r.timings
  {
  }

  /** One event of the job itself: it writes the stamps of the steps it takes, each for the first time. */
  lemma OwnStamps(c: Protocol.Core, e: Protocol.Event, j: JobId, r: Store.Job, clock: int, now: int, x: Store.Stamp)
    requires Protocol.Enabled(c, e) && !e.Start? && OwnerOf(e) == Some(j) && j in c.procs
    requires Fits(c.procs[j].phase, FaceOf(r)) && JobOk(r, clock)
    ensures StampIn(PatchedAll(r, Moves(c, e), now).timings, x)
      == if Reaches(c, e, j, x) then Some(now) else StampIn(r.timings, x)
    ensures Reaches(c, e, j, x) ==> StampIn(r.timings, x).None?
  {
    hide Protocol.Enabled, Moves, PatchedAll, Reaches, Fits, JobOk, StampsIn, MayAll, FaceOf;
    MovesAre(c, e);
    MovesStamp(c, e, j, x);
    UpdatesStamp(r, Moves(c, e), now, x);
    OwnerFits(c, e, j, FaceOf(r));
    if Reaches(c, e, j, x) {
      SecondFinishes(Moves(c, e));
      WrittenOnce(r, Moves(c, e), clock, x);
    }
  }

  lemma SecondFinishes(moves: seq<Move>)
    requires |moves| <= 1 || moves == [Request, Await] || moves == [Respond, Finish]
      || moves == [Respond, Fail(Store.RespondMismatch)]
    ensures |moves| == 2 ==> StampOf(moves[1]).None? || StampOf(moves[1]) == Some(Store.FinishedAt)
  {
  }

  // ------------------------------------------------------------------ runs

  /** What the record of `j` says about `x`, if there is one. */
  function Stamped(s: State, j: JobId, x: Store.Stamp): Option<int> {
    if j in s.store.jobs then StampIn(s.store.jobs[j].timings, x) else None
  }

  lemma EventStamps(cfg: Config, s: State, e: Protocol.Event, now: int, j: JobId, x: Store.Stamp)
    requires Inv(cfg, s) && Enabled(s, Happens(e, now)) && j in Step(cfg, s, Happens(e, now)).store.jobs
    ensures Stamped(Step(cfg, s, Happens(e, now)), j, x)
      == if Reaches(s.core, e, j, x) then Some(now) else Stamped(s, j, x)
    ensures Reaches(s.core, e, j, x) ==> Stamped(s, j, x).None?
  {
    hide Inv, Protocol.Step, Protocol.Enabled, Reaches, Moves, Ops, Final, Follows, PatchedAll, JobOk, Fits, StampIn;
    EventKeepsInv(cfg, s, e, now);
    RecordAfter(cfg.limits, s.clock, s.store, e, s.core, now, j);
    StoreFits(cfg, s, j);
    if OwnerOf(e) == Some(j) {
      OwnStamps(s.core, e, j, s.store.jobs[j], s.clock, now, x);
    } else {
      OthersReach(s.core, e, j, x);
    }
  }

  lemma SubmitStamps(cfg: Config, s: State, k: JobId, mode: Store.Mode, now: int, j: JobId, x: Store.Stamp)
    requires Inv(cfg, s) && Enabled(s, Submit(k, mode, now)) && j in Submitted(cfg, s, k, mode, now).store.jobs
    ensures Stamped(Submitted(cfg, s, k, mode, now), j, x)
      == if x.AcceptedAt? && Accepts(cfg, s, Submit(k, mode, now), j) then Some(now) else Stamped(s, j, x)
    ensures x.AcceptedAt? && Accepts(cfg, s, Submit(k, mode, now), j) ==> Stamped(s, j, x).None?
  {
    hide Inv, Answer, Admitted, Protocol.Step, Applied, Limiter.HitsAfter, StampIn;
    if Answer(cfg, s, k, now).Accepted? { AdmissionStamps(cfg, s, k, mode, now, j, x); }
  }

  /** What admission makes of the store: a new record, and the others as they were. */
  lemma AdmissionAdds(cfg: Config, s: State, k: JobId, mode: Store.Mode, now: int, j: JobId)
    requires Inv(cfg, s) && k !in s.core.procs && k !in s.store.jobs && j in Admitted(cfg, s, k, mode, now).store.jobs
    ensures var next := Admitted(cfg, s, k, mode, now).store;
      if j == k then next.jobs[k].timings == map[Store.AcceptedAt := now] && next.jobs[k].mode == mode
      else j in s.store.jobs && next.jobs[j] == s.store.jobs[j]
  {
    SoundIsWellFormed(cfg, s);
    AdmittedStore(cfg, s, k, mode, now);
    hide Inv, Store.WellFormed, Store.Create, OnlyTouches, NewJob, Admitted;
    CreateTouches(s.store, cfg.limits.retained, k, mode, now);
    NewStamps(s.store, Store.Create(s.store, cfg.limits.retained, k, mode, now), k, mode, now, j);
  }

  lemma AdmittedStore(cfg: Config, s: State, k: JobId, mode: Store.Mode, now: int)
    requires k !in s.core.procs
    ensures Admitted(cfg, s, k, mode, now).store == Store.Create(s.store, cfg.limits.retained, k, mode, now)
  {
    hide Store.Create, Protocol.Step, Limiter.HitsAfter;
  }

  lemma AdmissionStamps(cfg: Config, s: State, k: JobId, mode: Store.Mode, now: int, j: JobId, x: Store.Stamp)
    requires Inv(cfg, s) && k !in s.core.procs && k !in s.store.jobs && j in Admitted(cfg, s, k, mode, now).store.jobs
    ensures Stamped(Admitted(cfg, s, k, mode, now), j, x)
      == if x.AcceptedAt? && j == k then Some(now) else Stamped(s, j, x)
  {
    hide Inv, Admitted;
    AdmissionAdds(cfg, s, k, mode, now, j);
  }

  lemma NewStamps(st: Store.Store, next: Store.Store, k: JobId, mode: Store.Mode, now: int, j: JobId)
    requires OnlyTouches(st, next, k) && k in next.jobs && next.jobs[k] == NewJob(mode, now) && j in next.jobs
    ensures j != k ==> j in st.jobs && next.jobs[j] == st.jobs[j]
    ensures next.jobs[k].timings == map[Store.AcceptedAt := now] && next.jobs[k].mode == mode
  {
  }

  lemma StepStamps(cfg: Config, s: State, i: Input, j: JobId, x: Store.Stamp)
    requires Inv(cfg, s) && Enabled(s, i) && j in Step(cfg, s, i).store.jobs
    ensures Stamped(Step(cfg, s, i), j, x) == if InputReaches(cfg, s, i, j, x) then Some(i.now) else Stamped(s, j, x)
    ensures InputReaches(cfg, s, i, j, x) ==> Stamped(s, j, x).None?
  {
    hide Inv, Submitted, Answer, Protocol.Step, Protocol.Enabled, Ops, Final, Stamped, Finishes, GetsAddress;
    match i
    case Submit(k, mode, now) => SubmitStamps(cfg, s, k, mode, now, j, x);
    case Ask(_, _) => AskStamps(cfg, s, i, j, x);
    case Happens(e, now) => EventStamps(cfg, s, e, now, j, x);
  }

  lemma AskStamps(cfg: Config, s: State, i: Input, j: JobId, x: Store.Stamp)
    requires Enabled(s, i) && i.Ask?
    ensures Stamped(Step(cfg, s, i), j, x) == Stamped(s, j, x)
  {
  }

  lemma NothingBeforeBirth(cfg: Config, s: State, i: Input, j: JobId, x: Store.Stamp)
    requires Inv(cfg, s) && Enabled(s, i) && j !in s.core.procs && j !in Step(cfg, s, i).core.procs
    ensures !InputReaches(cfg, s, i, j, x) && Stamped(s, j, x).None? && Stamped(Step(cfg, s, i), j, x).None?
  {
    hide Inv, Step, Enabled, Stamped, InputReaches;
    StepKeepsInv(cfg, s, i);
    UnknownIsUnstamped(cfg, s, j, x);
    UnknownIsUnstamped(cfg, Step(cfg, s, i), j, x);
    UnknownReaches(cfg, s, i, j, x);
  }

  lemma UnknownIsUnstamped(cfg: Config, s: State, j: JobId, x: Store.Stamp)
    requires Inv(cfg, s) && j !in s.core.procs
    ensures Stamped(s, j, x).None?
  {
  }

  lemma UnknownReaches(cfg: Config, s: State, i: Input, j: JobId, x: Store.Stamp)
    requires Enabled(s, i) && j !in s.core.procs && j !in Step(cfg, s, i).core.procs
    ensures !InputReaches(cfg, s, i, j, x)
  {
    if i.Happens? { StrangersReach(s.core, i.event, j, x); }
  }

  lemma StrangersReach(c: Protocol.Core, e: Protocol.Event, j: JobId, x: Store.Stamp)
    requires Protocol.Enabled(c, e) && j !in c.procs
    ensures !Reaches(c, e, j, x)
  {
    hide Protocol.Enabled, Reaches;
    if e.Start? || e.SweepEnds? || e.SweepFails? { SweepsReachNothing(c, e, j, x); }
    else if OwnerOf(e) == Some(j) { StrayDoes(c, e, j); }
    else { OthersReach(c, e, j, x); }
  }

  lemma SweepsReachNothing(c: Protocol.Core, e: Protocol.Event, j: JobId, x: Store.Stamp)
    requires Protocol.Enabled(c, e) && (e.Start? || e.SweepEnds? || e.SweepFails?)
    ensures !Reaches(c, e, j, x)
  {
    hide Protocol.Enabled;
  }

  lemma {:induction false} RunStamps(cfg: Config, s: State, ins: seq<Input>, j: JobId, x: Store.Stamp)
    requires Inv(cfg, s) && Possible(cfg, s, ins) && j in After(cfg, s, ins).store.jobs
    ensures Stamped(After(cfg, s, ins), j, x)
      == if Stamped(s, j, x).Some? then Stamped(s, j, x) else TimeOf(cfg, s, ins, j, x)
    decreases |ins|
  {
    hide Inv, Step, Enabled, Stamped, InputReaches;
    if ins != [] {
      StepKeepsInv(cfg, s, ins[0]);
      RunStamps(cfg, Step(cfg, s, ins[0]), ins[1..], j, x);
      FirstStepStamps(cfg, s, ins, j, x);
    }
  }

  lemma FirstStepStamps(cfg: Config, s: State, ins: seq<Input>, j: JobId, x: Store.Stamp)
    requires Inv(cfg, s) && Possible(cfg, s, ins) && ins != [] && j in After(cfg, s, ins).store.jobs
    ensures var t, reached := Step(cfg, s, ins[0]), InputReaches(cfg, s, ins[0], j, x);
      && Stamped(t, j, x) == (if reached then Some(ins[0].now) else Stamped(s, j, x))
      && (reached ==> Stamped(s, j, x).None?)
  {
    hide Inv, Step, Enabled, InputReaches, Stamped;
    var t := Step(cfg, s, ins[0]);
    StepKeepsInv(cfg, s, ins[0]);
    if j in t.core.procs {
      RunContinues(cfg, t, ins[1..], j);
      NeverBack(t, After(cfg, t, ins[1..]), j);
      StepStamps(cfg, s, ins[0], j, x);
    } else {
      BornLater(cfg, s, ins[0], j);
      NothingBeforeBirth(cfg, s, ins[0], j, x);
    }
  }

  /** Over every run of the service: each timestamp of a record is the time of its step, and there if it was taken. */
  lemma StampsAreTimes(cfg: Config, s: State, ins: seq<Input>, j: JobId, x: Store.Stamp)
    requires Init(s) && Possible(cfg, s, ins) && j in After(cfg, s, ins).store.jobs
    ensures StampIn(After(cfg, s, ins).store.jobs[j].timings, x) == TimeOf(cfg, s, ins, j, x)
  {
    InitInv(cfg, s);
    assert Stamped(s, j, x).None?;
    hide Inv, Init, Possible, After, TimeOf;
    RunStamps(cfg, s, ins, j, x);
  }

  function Between(from: Option<int>, upTo: Option<int>): Option<int> {
    if from.Some? && upTo.Some? then Some(upTo.value - from.value) else None
  }

  /**
   * Over every run of the service, for every record in it: the lease wait runs from acceptance to the step that gave
   * the job its address, the signature wait from the request to the signature, the confirmation from the broadcast to
   * the successful receipt, the respond wait from there to the respond, and the total from acceptance to the last
   * step of the job; and a duration is missing exactly when one of its two steps was not taken.
   */
  lemma DurationsAreSpans(cfg: Config, s: State, ins: seq<Input>, j: JobId)
    requires Init(s) && Possible(cfg, s, ins) && j in After(cfg, s, ins).store.jobs
    ensures var t := After(cfg, s, ins); var d := Store.DurationsFor(t.store.jobs[j].timings);
      && j in t.born && TimeOf(cfg, s, ins, j, Store.AcceptedAt) == Some(t.born[j])
      && d.leaseWaitMs == Between(Some(t.born[j]), TimeOf(cfg, s, ins, j, Store.LeaseAcquiredAt))
      && d.signatureMs
         == Between(TimeOf(cfg, s, ins, j, Store.SignSentAt), TimeOf(cfg, s, ins, j, Store.SignatureAt))
      && d.confirmationMs
         == Between(TimeOf(cfg, s, ins, j, Store.BroadcastAt), TimeOf(cfg, s, ins, j, Store.ConfirmedAt))
      && d.respondMs
         == Between(TimeOf(cfg, s, ins, j, Store.ConfirmedAt), TimeOf(cfg, s, ins, j, Store.RespondedAt))
      && d.totalMs == Between(Some(t.born[j]), TimeOf(cfg, s, ins, j, Store.FinishedAt))
  {
    var t := After(cfg, s, ins);
    InitInv(cfg, s);
    hide Init, Possible, After, TimeOf, Inv;
    RunKeepsInv(cfg, s, ins);
    BornAtAcceptance(cfg, t, j);
    StampsAreTimes(cfg, s, ins, j, Store.AcceptedAt);
    StampsAreTimes(cfg, s, ins, j, Store.LeaseAcquiredAt);
    StampsAreTimes(cfg, s, ins, j, Store.SignSentAt);
    StampsAreTimes(cfg, s, ins, j, Store.SignatureAt);
    StampsAreTimes(cfg, s, ins, j, Store.BroadcastAt);
    StampsAreTimes(cfg, s, ins, j, Store.ConfirmedAt);
    StampsAreTimes(cfg, s, ins, j, Store.RespondedAt);
    StampsAreTimes(cfg, s, ins, j, Store.FinishedAt);
    hide StampIn, Between;
    DurationsOf(t.store.jobs[j].timings);
  }

  lemma DurationsOf(t: Store.Timings)
    ensures var d := Store.DurationsFor(t);
      && d.leaseWaitMs == Between(StampIn(t, Store.AcceptedAt), StampIn(t, Store.LeaseAcquiredAt))
      && d.signatureMs == Between(StampIn(t, Store.SignSentAt), StampIn(t, Store.SignatureAt))
      && d.confirmationMs == Between(StampIn(t, Store.BroadcastAt), StampIn(t, Store.ConfirmedAt))
      && d.respondMs == Between(StampIn(t, Store.ConfirmedAt), StampIn(t, Store.RespondedAt))
      && d.totalMs == Between(StampIn(t, Store.AcceptedAt), StampIn(t, Store.FinishedAt))
  {
  }

  lemma BornAtAcceptance(cfg: Config, s: State, j: JobId)
    requires Inv(cfg, s) && j in s.store.jobs
    ensures j in s.born && StampIn(s.store.jobs[j].timings, Store.AcceptedAt) == Some(s.born[j])
  {
  }

  // ------------------------------------------------------------------ modes

  /** The mode asked for by the request that a run accepts as job `j`. */
  function ModeAsked(cfg: Config, s: State, ins: seq<Input>, j: JobId): Option<Store.Mode>
    requires Possible(cfg, s, ins)
    decreases |ins|
  {
    if ins == [] then None
    else if Accepts(cfg, s, ins[0], j) then Some(ins[0].mode)
    else ModeAsked(cfg, Step(cfg, s, ins[0]), ins[1..], j)
  }

  function ModeIn(s: State, j: JobId): Option<Store.Mode> {
    if j in s.store.jobs then Some(s.store.jobs[j].mode) else None
  }

  lemma {:induction false} UpdatesKeepMode(r: Store.Job, moves: seq<Move>, now: int)
    ensures PatchedAll(r, moves, now).mode == r.mode
    decreases |moves|
  {
    if moves != [] { UpdatesKeepMode(Store.Patched(r, PatchOf(moves[0], now)), moves[1..], now); }
  }

  lemma EventMode(cfg: Config, s: State, e: Protocol.Event, now: int, j: JobId)
    requires Inv(cfg, s) && Enabled(s, Happens(e, now)) && j in Step(cfg, s, Happens(e, now)).store.jobs
    ensures ModeIn(Step(cfg, s, Happens(e, now)), j) == ModeIn(s, j)
  {
    hide Inv, Protocol.Step, Protocol.Enabled, Moves, Ops, Final, Follows, PatchedAll;
    EventKeepsInv(cfg, s, e, now);
    RecordAfter(cfg.limits, s.clock, s.store, e, s.core, now, j);
    if OwnerOf(e) == Some(j) { UpdatesKeepMode(s.store.jobs[j], Moves(s.core, e), now); }
  }

  lemma SubmitMode(cfg: Config, s: State, k: JobId, mode: Store.Mode, now: int, j: JobId)
    requires Inv(cfg, s) && Enabled(s, Submit(k, mode, now)) && j in Submitted(cfg, s, k, mode, now).store.jobs
    ensures ModeIn(Submitted(cfg, s, k, mode, now), j)
      == if Accepts(cfg, s, Submit(k, mode, now), j) then Some(mode) else ModeIn(s, j)
  {
    hide Inv, Answer, Admitted, Protocol.Step, Applied, Limiter.HitsAfter;
    if Answer(cfg, s, k, now).Accepted? { AdmissionMode(cfg, s, k, mode, now, j); }
  }

  lemma AdmissionMode(cfg: Config, s: State, k: JobId, mode: Store.Mode, now: int, j: JobId)
    requires Inv(cfg, s) && k !in s.core.procs && k !in s.store.jobs && j in Admitted(cfg, s, k, mode, now).store.jobs
    ensures ModeIn(Admitted(cfg, s, k, mode, now), j) == if j == k then Some(mode) else ModeIn(s, j)
  {
    hide Inv, Admitted;
    AdmissionAdds(cfg, s, k, mode, now, j);
  }

  lemma StepMode(cfg: Config, s: State, i: Input, j: JobId)
    requires Inv(cfg, s) && Enabled(s, i) && j in Step(cfg, s, i).store.jobs
    ensures ModeIn(Step(cfg, s, i), j) == if Accepts(cfg, s, i, j) then Some(i.mode) else ModeIn(s, j)
  {
    hide Inv, Submitted, Answer, Protocol.Step, Protocol.Enabled, Ops, Final;
    match i
    case Submit(k, mode, now) => SubmitMode(cfg, s, k, mode, now, j);
    case Ask(_, _) =>
    case Happens(e, now) => EventMode(cfg, s, e, now, j);
  }

  lemma {:induction false} RunMode(cfg: Config, s: State, ins: seq<Input>, j: JobId)
    requires Inv(cfg, s) && Possible(cfg, s, ins) && j in After(cfg, s, ins).store.jobs
    ensures ModeIn(After(cfg, s, ins), j)
      == if ModeIn(s, j).Some? then ModeIn(s, j) else ModeAsked(cfg, s, ins, j)
    decreases |ins|
  {
    hide Inv, Step, Enabled, Accepts;
    if ins != [] {
      StepKeepsInv(cfg, s, ins[0]);
      RunMode(cfg, Step(cfg, s, ins[0]), ins[1..], j);
      FirstStepMode(cfg, s, ins, j);
    }
  }

  lemma FirstStepMode(cfg: Config, s: State, ins: seq<Input>, j: JobId)
    requires Inv(cfg, s) && Possible(cfg, s, ins) && ins != [] && j in After(cfg, s, ins).store.jobs
    ensures var asked := Accepts(cfg, s, ins[0], j);
      && ModeIn(Step(cfg, s, ins[0]), j) == (if asked then Some(ins[0].mode) else ModeIn(s, j))
      && (asked ==> ModeIn(s, j).None?)
  {
    hide Inv, Step;
    var t := Step(cfg, s, ins[0]);
    StepKeepsInv(cfg, s, ins[0]);
    hide Enabled;
    if j in t.core.procs {
      RunContinues(cfg, t, ins[1..], j);
      NeverBack(t, After(cfg, t, ins[1..]), j);
      StepMode(cfg, s, ins[0], j);
    } else {
      BornLater(cfg, s, ins[0], j);
      NothingBeforeBirth(cfg, s, ins[0], j, Store.AcceptedAt);
      Unrecorded(cfg, s, j);
      Unrecorded(cfg, t, j);
    }
  }

  lemma Unrecorded(cfg: Config, s: State, j: JobId)
    requires Inv(cfg, s) && j !in s.core.procs
    ensures j !in s.store.jobs
  {
  }

  /** Over every run of the service: a record carries the mode its request asked for. */
  lemma ModesAreAsked(cfg: Config, s: State, ins: seq<Input>, j: JobId)
    requires Init(s) && Possible(cfg, s, ins) && j in After(cfg, s, ins).store.jobs
    ensures Some(After(cfg, s, ins).store.jobs[j].mode) == ModeAsked(cfg, s, ins, j)
  {
    InitInv(cfg, s);
    assert ModeIn(s, j).None?;
    hide Inv, Init, Possible, After, ModeAsked;
    RunMode(cfg, s, ins, j);
  }
}
