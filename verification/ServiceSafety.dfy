/**
 * Every run of the service: the records follow the jobs, so the store's lifecycle and bounds
 * hold of the service; and the pool never serves more jobs than the store counts as active.
 */
module ServiceSafety {
  import opened Options
  import Pool = PoolModel
  import Protocol = JobProtocol
  import Store = StoreModel
  import opened StoreSafety
  import opened Service
  import LeaseSafety
  import LeaseTheorems

  // ------------------------------------------------------------------ a sequence of updates to one record

  predicate MayAll(f: Face, moves: seq<Move>)
    decreases |moves|
  {
    moves == [] || (MayMove(f, moves[0]) && MayAll(Moved(f, moves[0]), moves[1..]))
  }

  function MovedAll(f: Face, moves: seq<Move>): Face
    decreases |moves|
  {
    if moves == [] then f else MovedAll(Moved(f, moves[0]), moves[1..])
  }

  function PatchedAll(j: Store.Job, moves: seq<Move>, now: int): Store.Job
    decreases |moves|
  {
    if moves == [] then j else PatchedAll(Store.Patched(j, PatchOf(moves[0], now)), moves[1..], now)
  }

  lemma OnePatch(r: Store.Job, m: Move, now: int)
    ensures PatchedAll(r, [m], now) == Store.Patched(r, PatchOf(m, now))
  {
    assert [m][1..] == [];
  }

  lemma TwoPatches(r: Store.Job, m: Move, n: Move, now: int)
    ensures PatchedAll(r, [m, n], now) == Store.Patched(Store.Patched(r, PatchOf(m, now)), PatchOf(n, now))
  {
    assert [m, n][1..] == [n];
    OnePatch(Store.Patched(r, PatchOf(m, now)), n, now);
  }

  lemma LaterIsSound(st: Store.Store, l: Store.Limits, clock: int, now: int)
    requires Sound(st, l, clock) && clock <= now
    ensures Sound(st, l, now)
  {
    forall id | id in st.jobs ensures JobOk(st.jobs[id], now) {
      assert JobOk(st.jobs[id], clock);
    }
  }

  /** What is left of the record of `id` after the updates shows face `f`, and it is still there unless finished. */
  ghost predicate Shows(st: Store.Store, id: JobId, f: Face) {
    && (id in st.jobs ==> FaceOf(st.jobs[id]) == f)
    && (!Store.IsFinished(f.state) ==> id in st.jobs)
  }

  /** A record only ever moves forward: no timestamp is rewritten, and a finished record never changes. */
  ghost predicate Grows(a: Store.Job, b: Store.Job) {
    && b.mode == a.mode && Progress(a.state) <= Progress(b.state) && Extends(a.timings, b.timings)
    && (Store.IsFinished(a.state) ==> b == a)
  }

  ghost predicate GrowsFrom(st: Store.Store, next: Store.Store) {
    forall k :: k in next.jobs ==> k in st.jobs && Grows(st.jobs[k], next.jobs[k])
  }

  lemma GrowsTwice(a: Store.Store, b: Store.Store, c: Store.Store)
    requires GrowsFrom(a, b) && GrowsFrom(b, c)
    ensures GrowsFrom(a, c)
  {
    forall k | k in c.jobs ensures k in a.jobs && Grows(a.jobs[k], c.jobs[k]) {
      assert Grows(b.jobs[k], c.jobs[k]) && Grows(a.jobs[k], b.jobs[k]);
    }
  }

  lemma TouchGrows(st: Store.Store, next: Store.Store, id: JobId)
    requires id in st.jobs && OnlyTouches(st, next, id) && (id in next.jobs ==> Grows(st.jobs[id], next.jobs[id]))
    ensures GrowsFrom(st, next)
  {
  }

  lemma MoveGrows(j: Store.Job, m: Move, clock: int, now: int)
    requires JobOk(j, clock) && CanMove(j, m) && clock <= now
    ensures Grows(j, Store.Patched(j, PatchOf(m, now)))
  {
    hide JobOk;
    MoveKeepsJob(j, m, clock, now);
  }

  lemma OneAct(st: Store.Store, l: Store.Limits, clock: int, id: JobId, m: Move, now: int)
    requires Sound(st, l, clock) && id in st.jobs && CanMove(st.jobs[id], m) && clock <= now
    ensures var next := Applied(st, l, Act(id, m, now));
      && Legal(st, l, clock, Act(id, m, now)) && Sound(next, l, now)
      && OnlyTouches(st, next, id) && Shows(next, id, Moved(FaceOf(st.jobs[id]), m))
      && GrowsFrom(st, next)
      && (id in next.jobs ==> next.jobs[id] == Store.Patched(st.jobs[id], PatchOf(m, now)))
  {
    OpIsSound(st, l, clock, Act(id, m, now));
    assert JobOk(st.jobs[id], clock);
    MoveKeepsJob(st.jobs[id], m, clock, now);
    UpdateTouches(st, l.retained, id, PatchOf(m, now));
    MoveGrows(st.jobs[id], m, clock, now);
    TouchGrows(st, Applied(st, l, Act(id, m, now)), id);
  }

  lemma TouchesTwice(a: Store.Store, b: Store.Store, c: Store.Store, id: JobId)
    requires OnlyTouches(a, b, id) && OnlyTouches(b, c, id)
    ensures OnlyTouches(a, c, id)
  {
  }

  lemma NothingMoreMay(f: Face, moves: seq<Move>)
    requires MayAll(f, moves) && Store.IsFinished(f.state)
    ensures moves == []
  {
  }

  /** A legal sequence of updates to one record, as a run of the store. */
  lemma {:induction false} ActsFollow(st: Store.Store, l: Store.Limits, clock: int, id: JobId, moves: seq<Move>,
      now: int)
    requires Sound(st, l, clock) && id in st.jobs && MayAll(FaceOf(st.jobs[id]), moves) && clock <= now
    ensures LegalRun(st, l, clock, Acts(id, moves, now))
    ensures var next := Final(st, l, Acts(id, moves, now));
      && Sound(next, l, now) && OnlyTouches(st, next, id) && GrowsFrom(st, next)
      && Shows(next, id, MovedAll(FaceOf(st.jobs[id]), moves))
      && (id in next.jobs ==> next.jobs[id] == PatchedAll(st.jobs[id], moves, now))
    decreases |moves|
  {
    hide Sound, CanMove, MayMove, Moved, OnlyTouches, GrowsFrom, Legal, FaceOf;
    var ops := Acts(id, moves, now);
    if moves == [] {
      LaterIsSound(st, l, clock, now);
      TouchesNothing(st, id);
    } else {
      var op, f := Act(id, moves[0], now), Moved(FaceOf(st.jobs[id]), moves[0]);
      var next := Applied(st, l, op);
      MayIsCan(st.jobs[id], moves[0]);
      OneAct(st, l, clock, id, moves[0], now);
      assert ops[0] == op && ops[1..] == Acts(id, moves[1..], now);
      if id in next.jobs {
        ActsFollow(next, l, now, id, moves[1..], now);
        TouchesTwice(st, next, Final(next, l, ops[1..]), id);
        GrowsTwice(st, next, Final(next, l, ops[1..]));
      } else {
        NothingMoreMay(f, moves[1..]);
      }
    }
  }

  lemma TouchesNothing(st: Store.Store, id: JobId)
    ensures OnlyTouches(st, st, id) && GrowsFrom(st, st)
  {
  }

  lemma MayIsCan(j: Store.Job, m: Move)
    requires MayMove(FaceOf(j), m)
    ensures CanMove(j, m)
  {
  }

  // ------------------------------------------------------------------ the record follows the job

  /** What the record of a job suspended in `ph` shows. */
  predicate Fits(ph: Protocol.Phase, f: Face) {
    match ph
    case Deriving | Sweeping | Refreshing(_) | AwaitingLease => f == Face(Store.Pending, Store.AcceptedAt)
    case CheckingBalance | ReadingNonce(_) | Estimating(_, _) | Instructing(_) | SendingRequest(_) =>
      f == Face(Store.Pending, Store.LeaseAcquiredAt)
    case AwaitingSignature(_) => f == Face(Store.AwaitingSignature, Store.SignSentAt)
    case Attaching(_) => f == Face(Store.AwaitingSignature, Store.SignatureAt)
    case Broadcasting(_, _) => f == Face(Store.Verified, Store.SignatureAt)
    case Confirming(_) => f == Face(Store.Broadcast, Store.BroadcastAt)
    case AwaitingRespond => f == Face(Store.Confirmed, Store.ConfirmedAt)
    case Throwing(_) => Store.IsActive(f.state)
    case Ended => Store.IsFinished(f.state)
  }

  lemma CloseMoves(c: Protocol.Core, j: JobId, ph: Protocol.Phase)
    requires j in c.procs
    ensures Protocol.Close(c, j, ph).procs.Keys == c.procs.Keys
    ensures Protocol.Close(c, j, ph).procs[j].phase == ph
    ensures forall k :: k in c.procs && k != j ==> Protocol.Close(c, j, ph).procs[k] == c.procs[k]
  {
    hide Pool.Release;
  }

  lemma ShortMoves(c: Protocol.Core, j: JobId, balance: nat, minimum: nat)
    requires j in c.procs
    ensures Protocol.Short(c, j, balance, minimum).procs.Keys == c.procs.Keys
    ensures Protocol.Short(c, j, balance, minimum).procs[j].phase == Protocol.Ended
    ensures forall k :: k in c.procs && k != j ==> Protocol.Short(c, j, balance, minimum).procs[k] == c.procs[k]
  {
    hide Protocol.Close;
    CloseMoves(Protocol.Rebalanced(c, Protocol.LeaseOf(c, j), balance, minimum), j, Protocol.Ended);
  }

  lemma GiveUpMoves(c: Protocol.Core, j: JobId)
    requires Protocol.KnowsNonce(Protocol.PhaseOf(c, j))
    ensures Protocol.GiveUp(c, j).procs.Keys == c.procs.Keys
    ensures Protocol.GiveUp(c, j).procs[j].phase == Protocol.Ended
    ensures forall k :: k in c.procs && k != j ==> Protocol.GiveUp(c, j).procs[k] == c.procs[k]
  {
    hide Protocol.Close;
    CloseMoves(c.(pool := Pool.Quarantine(c.pool, Protocol.LeaseOf(c, j), Protocol.NonceOf(Protocol.PhaseOf(c, j)))),
               j, Protocol.Ended);
  }

  /** From `c` to `d` job `j` is the only one that moves, and it moves to `ph`. */
  ghost predicate MovesTo(c: Protocol.Core, d: Protocol.Core, j: JobId, ph: Protocol.Phase) {
    && d.procs.Keys == c.procs.Keys && j in c.procs
    && d.procs[j].phase == ph
    && forall k :: k in c.procs && k != j ==> d.procs[k] == c.procs[k]
  }

  /** Where an event that resumes a job past its lease takes it. */
  function NextPhase(c: Protocol.Core, e: Protocol.Event): Protocol.Phase
    requires Protocol.Resumes(e) && Protocol.Enabled(c, e)
  {
    var ph, quits := Protocol.PhaseOf(c, e.job), c.procs[e.job].aborted;
    match e
    case BalanceRead(_, balance) =>
      if balance < c.floor then Protocol.Ended
      else if quits then Protocol.Throwing(Protocol.ShuttingDown) else Protocol.ReadingNonce(balance)
    case NonceRead(j) => Protocol.Estimating(ph.balance, Protocol.Latest(c.chain[Protocol.LeaseOf(c, j)]))
    case Estimated(_, gasCost) =>
      if ph.balance < gasCost then Protocol.Ended
      else if quits then Protocol.Throwing(Protocol.ShuttingDown) else Protocol.Instructing(ph.nonce)
    case Instructed(_) => Protocol.SendingRequest(ph.nonce)
    case RequestSent(_) => Protocol.AwaitingSignature(ph.nonce)
    case Signed(_) => Protocol.Attaching(ph.nonce)
    case Attached(_, matches) => if matches then Protocol.Broadcasting(ph.nonce, false) else Protocol.Ended
    case NodeAccepts(_) => Protocol.Broadcasting(ph.nonce, true)
    case SendReturns(_) => Protocol.Confirming(ph.nonce)
    case Receipt(_, success) => if success then Protocol.AwaitingRespond else Protocol.Ended
    case _ => Protocol.Ended
  }

  lemma ResumeMoves(c: Protocol.Core, e: Protocol.Event)
    requires Protocol.Resumes(e) && Protocol.Enabled(c, e)
    ensures MovesTo(c, Protocol.Resume(c, e), e.job, NextPhase(c, e))
  {
    hide Protocol.Close, Protocol.Short, Protocol.GiveUp;
    var j := e.job;
    CloseMoves(c, j, NextPhase(c, e));
    if e.SendThrows? || e.ConfirmTimesOut? { GiveUpMoves(c, j); }
    else if LeaseSafety.Preflight(e) {
      var ph := Protocol.PhaseOf(c, j);
      ShortMoves(c, j, if e.BalanceRead? then e.balance else ph.balance,
                 if e.BalanceRead? then c.floor else if e.InsufficientFunds? then ph.balance + 1 else e.gasCost);
    }
  }

  lemma TwoMoves(f: Face, a: Move, b: Move)
    ensures MayAll(f, [a, b]) <==> MayMove(f, a) && MayMove(Moved(f, a), b)
    ensures MovedAll(f, [a, b]) == Moved(Moved(f, a), b)
  {
    assert [a, b][1..] == [b];
    OneMove(Moved(f, a), b);
    assert MayAll(f, [a, b]) <==> MayMove(f, a) && MayAll(Moved(f, a), [b]);
    assert MovedAll(f, [a, b]) == MovedAll(Moved(f, a), [b]);
  }

  lemma OneMove(f: Face, a: Move)
    ensures MayAll(f, [a]) <==> MayMove(f, a)
    ensures MovedAll(f, [a]) == Moved(f, a)
  {
  }

  predicate BeforeBroadcast(e: Protocol.Event) {
    e.BalanceRead? || e.NonceRead? || e.InsufficientFunds? || e.Estimated?
    || e.Instructed? || e.RequestSent? || e.Signed?
  }

  /** The updates a segment makes are allowed by the lifecycle, and the record keeps up with the job. */
  lemma EarlyFits(c: Protocol.Core, e: Protocol.Event, f: Face)
    requires Protocol.Enabled(c, e) && BeforeBroadcast(e) && Fits(Protocol.PhaseOf(c, e.job), f)
    ensures MayAll(f, Moves(c, e)) && Fits(NextPhase(c, e), MovedAll(f, Moves(c, e)))
  {
    hide MayAll, MovedAll;
    NoMoves(f);
    OneMove(f, Fail(Store.PreflightUnderfunded));
    TwoMoves(f, Request, Await);
    OneMove(f, Sign);
  }

  predicate AfterConfirmation(e: Protocol.Event) { e.Responded? || e.RespondTimesOut? || e.Caught? }

  predicate OfBroadcast(e: Protocol.Event) {
    e.SendReturns? || e.SendThrows? || e.Receipt? || e.ConfirmTimesOut?
  }

  lemma BroadcastFits(c: Protocol.Core, e: Protocol.Event, f: Face)
    requires OfBroadcast(e) && Protocol.Enabled(c, e) && Fits(Protocol.PhaseOf(c, e.job), f)
    ensures MayAll(f, Moves(c, e)) && Fits(NextPhase(c, e), MovedAll(f, Moves(c, e)))
  {
    hide MayAll, MovedAll;
    OneMove(f, Moves(c, e)[0]);
  }

  lemma MiddleFits(c: Protocol.Core, e: Protocol.Event, f: Face)
    requires e.SignatureTimesOut? || e.Attached? || e.NodeAccepts?
    requires Protocol.Enabled(c, e) && Fits(Protocol.PhaseOf(c, e.job), f)
    ensures MayAll(f, Moves(c, e)) && Fits(NextPhase(c, e), MovedAll(f, Moves(c, e)))
  {
    hide MayAll, MovedAll;
    var moves := Moves(c, e);
    if e.NodeAccepts? {
      NoMoves(f);
    } else {
      OneMove(f, moves[0]);
    }
  }

  lemma LateFits(c: Protocol.Core, e: Protocol.Event, f: Face)
    requires AfterConfirmation(e) && Protocol.Enabled(c, e) && Fits(Protocol.PhaseOf(c, e.job), f)
    ensures MayAll(f, Moves(c, e)) && Fits(NextPhase(c, e), MovedAll(f, Moves(c, e)))
  {
    hide MayAll, MovedAll;
    var moves := Moves(c, e);
    if e.Responded? { TwoMoves(f, moves[0], moves[1]); } else { OneMove(f, moves[0]); }
  }

  lemma NoMoves(f: Face)
    ensures MayAll(f, []) && MovedAll(f, []) == f
  {
  }

  /** The phases of all jobs but `who` are as before. */
  ghost predicate OthersRest(c: Protocol.Core, d: Protocol.Core, who: Option<JobId>) {
    && d.procs.Keys == c.procs.Keys
    && forall k :: k in c.procs && who != Some(k) ==> d.procs[k].phase == c.procs[k].phase
  }

  predicate Walks(e: Protocol.Event) {
    e.Derived? || e.Throws? || e.SweepFails? || e.SweepEnds? || e.Refreshed? || e.AsksLease? || e.LeaseSettles?
  }

  lemma SweepEndMoves(c: Protocol.Core, k: Protocol.SweepId, failed: bool)
    requires k.OfRequest? || Protocol.PhaseOf(c, k.job).Sweeping?
    ensures var d := Protocol.EndSweep(c, k, failed);
      && OthersRest(c, d, if k.OfJob? then Some(k.job) else None)
      && (k.OfJob? ==> k.job in c.procs && (d.procs[k.job].phase.Refreshing? || d.procs[k.job].phase.Throwing?))
  {
    hide Protocol.Close;
    if k.OfJob? { CloseMoves(c.(sweeps := c.sweeps - {k}), k.job, Protocol.Throwing(Protocol.Unanticipated)); }
  }

  lemma SettleMoves(c: Protocol.Core, j: JobId)
    requires Protocol.Enabled(c, Protocol.LeaseSettles(j))
    ensures var d := Protocol.SettleLease(c, j);
      && OthersRest(c, d, Some(j)) && j in c.procs
      && if c.pool.settled[c.procs[j].ticket.value].Granted? then d.procs[j].phase.CheckingBalance?
        else d.procs[j].phase.Throwing?
  {
    hide Protocol.Close;
    match c.pool.settled[c.procs[j].ticket.value]
    case Granted(_) =>
    case Refused(reason) => CloseMoves(c, j, Protocol.Throwing(Protocol.NoWorker(reason)));
    case Abandoned => CloseMoves(c, j, Protocol.Throwing(Protocol.Unanticipated));
  }

  predicate Prepares(e: Protocol.Event) { e.Derived? || e.SweepFails? || e.SweepEnds? || e.Refreshed? }

  lemma PrepareFits(c: Protocol.Core, e: Protocol.Event, j: JobId, f: Face)
    requires Protocol.Enabled(c, e) && Prepares(e) && OwnerOf(e) == Some(j) && Fits(Protocol.PhaseOf(c, j), f)
    ensures Moves(c, e) == []
    ensures OthersRest(c, Protocol.Step(c, e), Some(j))
    ensures j in c.procs ==> Fits(Protocol.Step(c, e).procs[j].phase, f)
  {
    hide Protocol.Close;
    if (e.SweepFails? || e.SweepEnds?) && Protocol.PhaseOf(c, j).Sweeping? { SweepEndMoves(c, e.sweep, e.SweepFails?); }
  }

  lemma AskFits(c: Protocol.Core, e: Protocol.Event, j: JobId, f: Face)
    requires Protocol.Enabled(c, e) && Walks(e) && !Prepares(e) && OwnerOf(e) == Some(j)
      && Fits(Protocol.PhaseOf(c, j), f)
    ensures MayAll(f, Moves(c, e))
    ensures OthersRest(c, Protocol.Step(c, e), Some(j))
    ensures j in c.procs ==> Fits(Protocol.Step(c, e).procs[j].phase, MovedAll(f, Moves(c, e)))
  {
    hide Protocol.Close, MayAll, MovedAll, Pool.AcquireWithin;
    NoMoves(f);
    OneMove(f, Lease);
    if e.LeaseSettles? { SettleMoves(c, j); }
    else { CloseMoves(c, j, Protocol.Throwing(if e.Throws? then Protocol.Unanticipated else Protocol.ShuttingDown)); }
  }

  /** An event that runs no job's segment moves none. */
  lemma UnownedRests(c: Protocol.Core, e: Protocol.Event)
    requires Protocol.Enabled(c, e) && OwnerOf(e).None?
    ensures OthersRest(c, Protocol.Step(c, e), None) && Moves(c, e) == []
  {
    if e.SweepFails? || e.SweepEnds? { SweepEndMoves(c, e.sweep, e.SweepFails?); }
  }

  lemma ResumeFits(c: Protocol.Core, e: Protocol.Event, f: Face)
    requires Protocol.Resumes(e) && Protocol.Enabled(c, e) && Fits(Protocol.PhaseOf(c, e.job), f)
    ensures MayAll(f, Moves(c, e)) && Fits(NextPhase(c, e), MovedAll(f, Moves(c, e)))
  {
    hide MayAll, MovedAll, Moves, NextPhase, Fits, Protocol.Enabled;
    if BeforeBroadcast(e) {
      EarlyFits(c, e, f);
    } else if AfterConfirmation(e) {
      LateFits(c, e, f);
    } else if OfBroadcast(e) {
      BroadcastFits(c, e, f);
    } else {
      MiddleFits(c, e, f);
    }
  }

  lemma OwnerFits(c: Protocol.Core, e: Protocol.Event, j: JobId, f: Face)
    requires Protocol.Enabled(c, e) && !e.Start? && OwnerOf(e) == Some(j) && Fits(Protocol.PhaseOf(c, j), f)
    ensures MayAll(f, Moves(c, e))
    ensures OthersRest(c, Protocol.Step(c, e), Some(j))
    ensures j in c.procs ==> Fits(Protocol.Step(c, e).procs[j].phase, MovedAll(f, Moves(c, e)))
  {
    hide Protocol.Resume, MayAll, MovedAll, Moves, NextPhase, Fits;
    if Prepares(e) {
      NoMoves(f);
      PrepareFits(c, e, j, f);
    } else if Walks(e) {
      AskFits(c, e, j, f);
    } else {
      ResumeMoves(c, e);
      ResumeFits(c, e, f);
    }
  }

  // ------------------------------------------------------------------ the invariant of the service

  /** Every job that has not ended has a record, and a record shows where its job is. */
  ghost predicate Agrees(c: Protocol.Core, st: Store.Store) {
    && (forall j :: j in st.jobs ==> j in c.procs && Fits(c.procs[j].phase, FaceOf(st.jobs[j])))
    && (forall j :: j in c.procs && !c.procs[j].phase.Ended? ==> j in st.jobs)
  }

  lemma AgreesAfter(c: Protocol.Core, d: Protocol.Core, st: Store.Store, next: Store.Store, j: JobId, f: Face)
    requires Agrees(c, st) && OthersRest(c, d, Some(j)) && j in c.procs
    requires OnlyTouches(st, next, j) && Shows(next, j, f) && Fits(d.procs[j].phase, f)
    ensures Agrees(d, next)
  {
    forall k | k in d.procs && !d.procs[k].phase.Ended? ensures k in next.jobs {
      if k != j {
        assert k in st.jobs && Fits(c.procs[k].phase, FaceOf(st.jobs[k]));
      }
    }
  }

  lemma RestAgrees(c: Protocol.Core, d: Protocol.Core, st: Store.Store)
    requires Agrees(c, st) && OthersRest(c, d, None)
    ensures Agrees(d, st)
  {
  }

  /** What an event does to core and store: the store follows one legal run of updates. */
  ghost predicate Follows(l: Store.Limits, clock: int, st: Store.Store, e: Protocol.Event, c: Protocol.Core, now: int)
    requires Protocol.Enabled(c, e)
  {
    var next := Final(st, l, Ops(c, e, now));
    && LegalRun(st, l, clock, Ops(c, e, now)) && Sound(next, l, now)
    && match OwnerOf(e)
       case None => next == st
       case Some(j) =>
         && OnlyTouches(st, next, j) && GrowsFrom(st, next)
         && (j in next.jobs ==> next.jobs[j] == PatchedAll(st.jobs[j], Moves(c, e), now))
  }

  lemma UnownedFollows(c: Protocol.Core, st: Store.Store, l: Store.Limits, clock: int, e: Protocol.Event, now: int)
    requires Agrees(c, st) && Sound(st, l, clock) && clock <= now
    requires Protocol.Enabled(c, e) && OwnerOf(e).None?
    ensures Follows(l, clock, st, e, c, now) && Agrees(Protocol.Step(c, e), Final(st, l, Ops(c, e, now)))
  {
    hide Sound, Protocol.Step, Agrees;
    UnownedRests(c, e);
    LaterIsSound(st, l, clock, now);
    RestAgrees(c, Protocol.Step(c, e), st);
  }

  /** A job that is over, or was never started, is still named by the end of a sweep at most. */
  lemma StrayDoes(c: Protocol.Core, e: Protocol.Event, j: JobId)
    requires Protocol.Enabled(c, e) && !e.Start? && OwnerOf(e) == Some(j)
    requires j !in c.procs || c.procs[j].phase.Ended?
    ensures e.SweepEnds? || e.SweepFails?
  {
  }

  /** A sweep that reports to a job which is no longer there, or not waiting for it, moves no job. */
  lemma StrayRests(c: Protocol.Core, e: Protocol.Event, j: JobId)
    requires Protocol.Enabled(c, e) && !e.Start? && OwnerOf(e) == Some(j)
    requires j !in c.procs || c.procs[j].phase.Ended?
    ensures Moves(c, e) == [] && OthersRest(c, Protocol.Step(c, e), None)
  {
    StrayDoes(c, e, j);
  }

  lemma StrayFollows(c: Protocol.Core, st: Store.Store, l: Store.Limits, clock: int, e: Protocol.Event, j: JobId,
      now: int)
    requires Agrees(c, st) && Sound(st, l, clock) && clock <= now
    requires Protocol.Enabled(c, e) && !e.Start? && OwnerOf(e) == Some(j)
    requires j !in c.procs || c.procs[j].phase.Ended?
    ensures Follows(l, clock, st, e, c, now) && Agrees(Protocol.Step(c, e), Final(st, l, Ops(c, e, now)))
  {
    hide Sound, Protocol.Step, Agrees, Moves;
    StrayRests(c, e, j);
    LaterIsSound(st, l, clock, now);
    RestAgrees(c, Protocol.Step(c, e), st);
    TouchesNothing(st, j);
  }

  lemma OwnedFollows(c: Protocol.Core, st: Store.Store, l: Store.Limits, clock: int, e: Protocol.Event, j: JobId,
      now: int)
    requires Agrees(c, st) && Sound(st, l, clock) && clock <= now
    requires Protocol.Enabled(c, e) && !e.Start? && OwnerOf(e) == Some(j)
    requires j in c.procs && j in st.jobs && Fits(c.procs[j].phase, FaceOf(st.jobs[j]))
    ensures Follows(l, clock, st, e, c, now) && Agrees(Protocol.Step(c, e), Final(st, l, Ops(c, e, now)))
  {
    hide Sound, Protocol.Step, Agrees, Moves, Fits, FaceOf, MayAll, MovedAll, Shows, OnlyTouches, OthersRest,
      Protocol.Enabled;
    var f := FaceOf(st.jobs[j]);
    OwnerFits(c, e, j, f);
    ActsFollow(st, l, clock, j, Moves(c, e), now);
    AgreesAfter(c, Protocol.Step(c, e), st, Final(st, l, Ops(c, e, now)), j, MovedAll(f, Moves(c, e)));
  }

  lemma EventFollows(c: Protocol.Core, st: Store.Store, l: Store.Limits, clock: int, e: Protocol.Event, now: int)
    requires Agrees(c, st) && Sound(st, l, clock) && clock <= now
    requires Protocol.Enabled(c, e) && !e.Start?
    ensures Follows(l, clock, st, e, c, now) && Agrees(Protocol.Step(c, e), Final(st, l, Ops(c, e, now)))
  {
    hide Sound, Protocol.Step, Follows, OwnerOf, Moves, Ops, Protocol.Enabled;
    match OwnerOf(e)
    case None => UnownedFollows(c, st, l, clock, e, now);
    case Some(j) =>
      if j !in c.procs || c.procs[j].phase.Ended? {
        StrayFollows(c, st, l, clock, e, j, now);
      } else {
        OwnedFollows(c, st, l, clock, e, j, now);
      }
  }

  /** An event leaves the phase of every job but its own as it is. */
  lemma OthersPhase(c: Protocol.Core, e: Protocol.Event, j: JobId)
    requires Protocol.Enabled(c, e) && !e.Start? && j in c.procs && OwnerOf(e) != Some(j)
    ensures j in Protocol.Step(c, e).procs && Protocol.Step(c, e).procs[j].phase == c.procs[j].phase
  {
    hide Protocol.Step, Protocol.Enabled, Moves;
    if OwnerOf(e).None? { UnownedRests(c, e); } else { LeaseTheorems.OthersStay(c, e, j); }
  }
}
