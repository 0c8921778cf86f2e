/**
 * Records against ledgers: however a run interleaves, and whether or not nonce safety holds in it, the transaction of
 * a job is mined at most once, and a job recorded as confirmed has it on the ledger of the address it leased, for good.
 */
module MinedOnce {
  import opened Options
  import Pool = PoolModel
  import opened JobProtocol
  import Store = StoreModel
  import opened StoreSafety
  import Service
  import opened ServiceSafety
  import opened ServiceRuns
  import ServiceLifecycle
  import LeaseSafety

  // ------------------------------------------------------------------ at most once

  /** How often job `j` is on the ledger of an address or outstanding there. */
  ghost function Weight(a: Account, j: JobId): nat {
    multiset(a.ledger)[j] + |set x | x in a.outstanding && x.job == j|
  }

  /** The job is on at most one ledger, or outstanding, and once at most. */
  ghost predicate AtMostOnce(c: Core, j: JobId) {
    && (forall i :: 0 <= i < |c.chain| ==> Weight(c.chain[i], j) <= 1)
    && (forall i, k :: 0 <= i < |c.chain| && 0 <= k < |c.chain| && i != k ==>
          Weight(c.chain[i], j) == 0 || Weight(c.chain[k], j) == 0)
  }

  ghost predicate Nowhere(c: Core, j: JobId) { forall i :: 0 <= i < |c.chain| ==> Weight(c.chain[i], j) == 0 }

  /** No node has accepted the job's transaction yet. */
  predicate Unsent(ph: Phase) { Early(ph) || ph.AwaitingLease? || (Holding(ph) && !Sent(ph)) }

  ghost predicate OnceOk(c: Core, j: JobId) {
    AtMostOnce(c, j) && (j !in c.procs || Unsent(c.procs[j].phase) ==> Nowhere(c, j))
  }

  lemma OutstandingShrinks(s: set<Tx>, t: set<Tx>, j: JobId)
    requires t <= s
    ensures |set x | x in t && x.job == j| <= |set x | x in s && x.job == j|
    ensures forall y :: y in s && y !in t && y.job == j ==>
      |set x | x in t && x.job == j| < |set x | x in s && x.job == j|
  {
    var a, b := set x | x in t && x.job == j, set x | x in s && x.job == j;
    SubsetCount(a, b);
    forall y | y in s && y !in t && y.job == j ensures |a| < |b| {
      SubsetCount(a, b - {y});
    }
  }

  lemma MiningWeighs(a: Account, tx: Tx, j: JobId)
    requires tx in a.outstanding
    ensures Weight(Mined(a, tx), j) <= Weight(a, j)
  {
    OutstandingShrinks(a.outstanding, Mined(a, tx).outstanding, j);
    assert multiset(a.ledger + [tx.job]) == multiset(a.ledger) + multiset{tx.job};
  }

  lemma DroppingWeighs(a: Account, tx: Tx, j: JobId)
    ensures Weight(a.(outstanding := a.outstanding - {tx}), j) <= Weight(a, j)
  {
    OutstandingShrinks(a.outstanding, a.outstanding - {tx}, j);
  }

  lemma AcceptingWeighs(a: Account, tx: Tx, j: JobId)
    ensures Weight(a.(outstanding := a.outstanding + {tx}), j) <= Weight(a, j) + (if tx.job == j then 1 else 0)
  {
    var s, t := set x | x in a.outstanding && x.job == j, set x | x in a.outstanding + {tx} && x.job == j;
    assert t == if tx.job == j then s + {tx} else s;
  }

  /** Weights that only fall keep the bound. */
  lemma LighterIsOnce(c: Core, d: Core, j: JobId)
    requires AtMostOnce(c, j) && |d.chain| == |c.chain|
    requires forall i :: 0 <= i < |c.chain| ==> Weight(d.chain[i], j) <= Weight(c.chain[i], j)
    ensures AtMostOnce(d, j) && (Nowhere(c, j) ==> Nowhere(d, j))
  {
  }

  predicate Ledgers(e: Event) { e.NodeAccepts? || e.Mine? || e.Drop? }

  lemma ChainStays(c: Core, e: Event)
    requires Enabled(c, e) && !Ledgers(e)
    ensures Step(c, e).chain == c.chain
  {
    if Resumes(e) { ChainStaysOnResume(c, e); }
  }

  lemma ChainStaysOnResume(c: Core, e: Event)
    requires Resumes(e) && Enabled(c, e) && !Ledgers(e)
    ensures Resume(c, e).chain == c.chain
  {
  }

  lemma OwnStepSends(c: Core, e: Event, j: JobId)
    requires Enabled(c, e) && !e.Start? && Service.OwnerOf(e) == Some(j)
    ensures j in Step(c, e).procs && Unsent(Step(c, e).procs[j].phase) ==> j in c.procs && Unsent(c.procs[j].phase)
  {
    hide Close;
    if j in c.procs { CloseEnds(c, j); }
    if Resumes(e) { OwnResumeSends(c, e); }
  }

  lemma CloseEnds(c: Core, j: JobId)
    requires j in c.procs
    ensures forall ph :: Close(c, j, ph).procs.Keys == c.procs.Keys && Close(c, j, ph).procs[j].phase == ph
  {
  }

  lemma OwnResumeSends(c: Core, e: Event)
    requires Resumes(e) && Enabled(c, e)
    ensures e.job in Resume(c, e).procs && Unsent(Resume(c, e).procs[e.job].phase) ==>
      e.job in c.procs && Unsent(c.procs[e.job].phase)
  {
  }

  lemma UnsentComesFirst(c: Core, e: Event, j: JobId)
    requires Enabled(c, e)
    ensures j in Step(c, e).procs && Unsent(Step(c, e).procs[j].phase) ==> j !in c.procs || Unsent(c.procs[j].phase)
  {
    if j in c.procs && !e.Start? {
      hide Step, Enabled, Unsent;
      if Service.OwnerOf(e) == Some(j) { OwnStepSends(c, e, j); } else { OthersPhase(c, e, j); }
    }
  }

  lemma AcceptIsOnce(c: Core, j: JobId, k: JobId)
    requires OnceOk(c, j) && Enabled(c, NodeAccepts(k))
    ensures AtMostOnce(Step(c, NodeAccepts(k)), j) && (k != j && Nowhere(c, j) ==> Nowhere(Step(c, NodeAccepts(k)), j))
  {
    var d, at, tx := Step(c, NodeAccepts(k)), LeaseOf(c, k), Tx(k, PhaseOf(c, k).nonce);
    AcceptingWeighs(c.chain[at], tx, j);
    hide Weight;
    if k == j { assert Nowhere(c, j); } else { LighterIsOnce(c, d, j); }
  }

  lemma MineIsOnce(c: Core, at: nat, tx: Tx, j: JobId)
    requires AtMostOnce(c, j) && Enabled(c, Mine(at, tx))
    ensures var d := Step(c, Mine(at, tx)); AtMostOnce(d, j) && (Nowhere(c, j) ==> Nowhere(d, j))
  {
    MiningWeighs(c.chain[at], tx, j);
    hide Weight, AtMostOnce, Nowhere;
    LighterIsOnce(c, Step(c, Mine(at, tx)), j);
  }

  lemma DropIsOnce(c: Core, at: nat, tx: Tx, j: JobId)
    requires AtMostOnce(c, j) && Enabled(c, Drop(at, tx))
    ensures var d := Step(c, Drop(at, tx)); AtMostOnce(d, j) && (Nowhere(c, j) ==> Nowhere(d, j))
  {
    DroppingWeighs(c.chain[at], tx, j);
    hide Weight, AtMostOnce, Nowhere;
    LighterIsOnce(c, Step(c, Drop(at, tx)), j);
  }

  lemma AcceptedIsSent(c: Core, j: JobId)
    requires Enabled(c, NodeAccepts(j))
    ensures var d := Step(c, NodeAccepts(j)); j in d.procs && !Unsent(d.procs[j].phase)
  {
  }

  lemma StepIsOnce(c: Core, e: Event, j: JobId)
    requires OnceOk(c, j) && Enabled(c, e)
    ensures OnceOk(Step(c, e), j)
  {
    hide Weight, Unsent, Step, Enabled, AtMostOnce, Nowhere;
    UnsentComesFirst(c, e, j);
    if e.NodeAccepts? {
      AcceptIsOnce(c, j, e.job);
      if e.job == j { AcceptedIsSent(c, j); } else { KnownStays(c, e, j); }
    } else if Ledgers(e) {
      if e.Mine? { MineIsOnce(c, e.at, e.tx, j); } else { DropIsOnce(c, e.at, e.tx, j); }
      KnownStays(c, e, j);
    } else {
      ChainStays(c, e);
      SameChain(c, Step(c, e), j);
      KnownStays(c, e, j);
    }
  }

  lemma SameChain(c: Core, d: Core, j: JobId)
    requires d.chain == c.chain
    ensures AtMostOnce(d, j) <==> AtMostOnce(c, j)
    ensures Nowhere(d, j) <==> Nowhere(c, j)
  {
  }

  /** A job once started stays known. */
  lemma KnownStays(c: Core, e: Event, j: JobId)
    requires Enabled(c, e)
    ensures j in c.procs ==> j in Step(c, e).procs
  {
    if j in c.procs && !e.Start? {
      hide Step, Enabled;
      ServiceLifecycle.AbortedGrows(c, e, j);
    }
  }

  // ------------------------------------------------------------------ for good

  /** The job's transaction is on the ledger of the address it leased. */
  ghost predicate OnLedger(c: Core, j: JobId) {
    && j in c.procs && c.procs[j].worker.Some? && c.procs[j].worker.value < |c.chain|
    && j in c.chain[c.procs[j].worker.value].ledger
  }

  lemma LedgersGrow(c: Core, e: Event)
    requires Enabled(c, e)
    ensures |Step(c, e).chain| == |c.chain|
    ensures forall i, j :: 0 <= i < |c.chain| && j in c.chain[i].ledger ==> j in Step(c, e).chain[i].ledger
  {
    if !Ledgers(e) { ChainStays(c, e); }
  }

  /** Past its lease a job never gets another worker. */
  lemma WorkerStays(c: Core, e: Event, j: JobId)
    requires Enabled(c, e) && !e.Start? && j in c.procs && c.procs[j].worker.Some? && !c.procs[j].phase.AwaitingLease?
    ensures j in Step(c, e).procs && Step(c, e).procs[j].worker == c.procs[j].worker
    ensures !Step(c, e).procs[j].phase.AwaitingLease? || Early(c.procs[j].phase)
  {
    if Resumes(e) { WorkerStaysOnResume(c, e, j); }
  }

  /** Nobody's worker changes. */
  ghost predicate SameHolders(c: Core, d: Core) {
    d.procs.Keys == c.procs.Keys && forall k :: k in c.procs ==> d.procs[k].worker == c.procs[k].worker
  }

  lemma CloseKeepsHolders(c: Core, j: JobId, ph: Phase)
    requires j in c.procs
    ensures SameHolders(c, Close(c, j, ph))
  {
  }

  lemma GivingUpKeepsHolders(c: Core, j: JobId)
    requires KnowsNonce(PhaseOf(c, j))
    ensures SameHolders(c, GiveUp(c, j))
  {
    hide Close;
    CloseKeepsHolders(c.(pool := Pool.Quarantine(c.pool, LeaseOf(c, j), NonceOf(PhaseOf(c, j)))), j, Ended);
  }

  lemma PreflightKeepsHolders(c: Core, e: Event)
    requires LeaseSafety.Preflight(e) && Enabled(c, e)
    ensures SameHolders(c, Resume(c, e))
  {
    hide Close;
    var j, ph := e.job, PhaseOf(c, e.job);
    CloseKeepsHolders(c, j, Throwing(ShuttingDown));
    var balance := if e.BalanceRead? then e.balance else ph.balance;
    var minimum := if e.BalanceRead? then c.floor else if e.Estimated? then e.gasCost else ph.balance + 1;
    CloseKeepsHolders(Rebalanced(c, LeaseOf(c, j), balance, minimum), j, Ended);
  }

  lemma LaterKeepsHolders(c: Core, e: Event)
    requires Resumes(e) && !LeaseSafety.Preflight(e) && Enabled(c, e)
    ensures SameHolders(c, Resume(c, e))
  {
    hide Close, GiveUp;
    if e.SendThrows? || e.ConfirmTimesOut? {
      GivingUpKeepsHolders(c, e.job);
    } else {
      CloseKeepsHolders(c, e.job, if e.Receipt? && e.success then AwaitingRespond else Ended);
    }
  }

  lemma NextIsPastLease(c: Core, e: Event)
    requires Resumes(e) && Enabled(c, e)
    ensures !NextPhase(c, e).AwaitingLease?
  {
  }

  lemma WorkerStaysOnResume(c: Core, e: Event, j: JobId)
    requires Resumes(e) && Enabled(c, e) && j in c.procs
    ensures j in Resume(c, e).procs && Resume(c, e).procs[j].worker == c.procs[j].worker
    ensures Resume(c, e).procs[j].phase.AwaitingLease? ==> c.procs[j].phase.AwaitingLease?
  {
    hide Resume, Enabled, NextPhase;
    if LeaseSafety.Preflight(e) { PreflightKeepsHolders(c, e); } else { LaterKeepsHolders(c, e); }
    ResumeMoves(c, e);
    NextIsPastLease(c, e);
  }

  predicate IsConfirmed(s: Store.State) { s.Confirmed? || s.Responded? }

  /** A record that says confirmed or responded speaks of a mined transaction. */
  ghost predicate RecordIsMined(s: Service.State, j: JobId) {
    j in s.store.jobs && IsConfirmed(s.store.jobs[j].state) ==> OnLedger(s.core, j)
  }

  lemma OnLedgerStays(c: Core, e: Event, j: JobId)
    requires Enabled(c, e) && !e.Start? && OnLedger(c, j) && !c.procs[j].phase.AwaitingLease?
    ensures OnLedger(Step(c, e), j)
  {
    hide Step, Enabled;
    LedgersGrow(c, e);
    WorkerStays(c, e, j);
  }

  /** A successful receipt names the job's own transaction, at the address it still holds. */
  lemma ReceiptIsOnLedger(c: Core, j: JobId)
    requires LeaseSafety.Leases(c) && Enabled(c, Receipt(j, true))
    ensures OnLedger(c, j) && !c.procs[j].phase.AwaitingLease?
  {
    assert LeaseSafety.ProcOk(c, j);
  }

  /** The update that makes a record confirmed is made on a successful receipt; responded comes after confirmed. */
  lemma BecomesConfirmed(c: Core, e: Event, j: JobId, r: Store.Job, now: int)
    requires Enabled(c, e) && !e.Start? && Service.OwnerOf(e) == Some(j) && j in c.procs
    requires Fits(c.procs[j].phase, FaceOf(r)) && IsConfirmed(PatchedAll(r, Service.Moves(c, e), now).state)
    ensures IsConfirmed(r.state) || e == Receipt(j, true)
    ensures IsConfirmed(r.state) ==> !c.procs[j].phase.AwaitingLease?
  {
    var moves := Service.Moves(c, e);
    ServiceLifecycle.MovesAre(c, e);
    ConfirmingMoves(c, e, j);
    if |moves| == 1 {
      OnePatch(r, moves[0], now);
      assert moves == [moves[0]];
    } else if |moves| == 2 {
      TwoPatches(r, moves[0], moves[1], now);
    }
  }

  lemma ConfirmingMoves(c: Core, e: Event, j: JobId)
    requires Enabled(c, e) && !e.Start? && Service.OwnerOf(e) == Some(j)
    ensures var moves := Service.Moves(c, e);
      && (|moves| == 1 && (moves[0].Confirm? || moves[0].Finish?) ==> e == Receipt(j, true))
      && (|moves| == 2 && moves[0].Respond? ==> PhaseOf(c, j).AwaitingRespond?)
  {
  }

  lemma EventKeepsMined(cfg: Service.Config, s: Service.State, e: Event, now: int, j: JobId)
    requires Inv(cfg, s) && Service.Enabled(s, Service.Happens(e, now)) && RecordIsMined(s, j)
    ensures RecordIsMined(Service.Step(cfg, s, Service.Happens(e, now)), j)
  {
    var t := Service.Step(cfg, s, Service.Happens(e, now));
    if j in t.store.jobs {
      hide Inv, Step, Enabled, Final, Service.Ops, Service.Moves, Follows, PatchedAll, OnLedger, Fits, JobOk;
      EventKeepsInv(cfg, s, e, now);
      ServiceLifecycle.RecordAfter(cfg.limits, s.clock, s.store, e, s.core, now, j);
      ServiceLifecycle.StoreFits(cfg, s, j);
      if IsConfirmed(t.store.jobs[j].state) {
        ConfirmedIsOnLedger(cfg, s, e, now, j);
      }
    }
  }

  lemma ConfirmedIsOnLedger(cfg: Service.Config, s: Service.State, e: Event, now: int, j: JobId)
    requires Inv(cfg, s) && Enabled(s.core, e) && !e.Start? && RecordIsMined(s, j) && j in s.store.jobs
    requires var r := s.store.jobs[j];
      IsConfirmed((if Service.OwnerOf(e) == Some(j) then PatchedAll(r, Service.Moves(s.core, e), now) else r).state)
    ensures OnLedger(Step(s.core, e), j)
  {
    var r := s.store.jobs[j];
    ServiceLifecycle.StoreFits(cfg, s, j);
    HasLeases(cfg, s);
    if IsConfirmed(r.state) { ConfirmedIsPastLease(s.core.procs[j].phase, r); }
    hide Inv, Step, Enabled, Service.Moves, PatchedAll, OnLedger, Fits, JobOk, LeaseSafety.Leases;
    if Service.OwnerOf(e) == Some(j) { BecomesConfirmed(s.core, e, j, r, now); }
    if !IsConfirmed(r.state) { ReceiptIsOnLedger(s.core, j); }
    OnLedgerStays(s.core, e, j);
  }

  lemma ConfirmedIsPastLease(ph: Phase, r: Store.Job)
    requires Fits(ph, FaceOf(r)) && IsConfirmed(r.state)
    ensures !ph.AwaitingLease?
  {
  }

  lemma SubmitKeepsMined(cfg: Service.Config, s: Service.State, k: JobId, mode: Store.Mode, now: int, j: JobId)
    requires Store.WellFormed(s.store) && Service.Enabled(s, Service.Submit(k, mode, now)) && RecordIsMined(s, j)
    ensures RecordIsMined(Service.Submitted(cfg, s, k, mode, now), j)
  {
    hide Store.WellFormed, Store.Create, Service.Answer, OnLedger, Step, OnlyTouches, NewJob;
    if Service.Answer(cfg, s, k, now).Accepted? {
      StartKeepsLedger(s.core, k, j);
      CreateTouches(s.store, cfg.limits.retained, k, mode, now);
      NewIsNotConfirmed(s.store, Store.Create(s.store, cfg.limits.retained, k, mode, now), k, mode, now, j);
    }
  }

  lemma NewIsNotConfirmed(st: Store.Store, next: Store.Store, k: JobId, mode: Store.Mode, now: int, j: JobId)
    requires OnlyTouches(st, next, k) && k in next.jobs && next.jobs[k] == NewJob(mode, now)
    ensures j in next.jobs && IsConfirmed(next.jobs[j].state) ==> j in st.jobs && IsConfirmed(st.jobs[j].state)
  {
  }

  lemma StartKeepsLedger(c: Core, k: JobId, j: JobId)
    requires k !in c.procs
    ensures OnLedger(c, j) ==> OnLedger(Step(c, Start(k)), j)
  {
  }

  lemma StepKeepsMined(cfg: Service.Config, s: Service.State, i: Service.Input, j: JobId)
    requires Inv(cfg, s) && Service.Enabled(s, i) && RecordIsMined(s, j)
    ensures RecordIsMined(Service.Step(cfg, s, i), j)
  {
    SoundIsWellFormed(cfg, s);
    hide Inv, Store.WellFormed, Service.Submitted, Step, Enabled, Final, Service.Ops, OnLedger;
    match i
    case Submit(k, mode, now) => SubmitKeepsMined(cfg, s, k, mode, now, j);
    case Ask(_, _) =>
    case Happens(e, now) => EventKeepsMined(cfg, s, e, now, j);
  }

  lemma {:induction false} RunKeepsMined(cfg: Service.Config, s: Service.State, ins: seq<Service.Input>, j: JobId)
    requires Inv(cfg, s) && Service.Possible(cfg, s, ins) && RecordIsMined(s, j)
    ensures RecordIsMined(Service.After(cfg, s, ins), j)
    decreases |ins|
  {
    hide Inv, Service.Step, Service.Enabled, RecordIsMined;
    if ins != [] {
      StepKeepsMined(cfg, s, ins[0], j);
      StepKeepsInv(cfg, s, ins[0]);
      RunKeepsMined(cfg, Service.Step(cfg, s, ins[0]), ins[1..], j);
    }
  }

  // ------------------------------------------------------------------ runs of the service

  /** What one input does to the jobs: one step of the protocol, or nothing. */
  lemma InputIsStep(cfg: Service.Config, s: Service.State, i: Service.Input)
    requires Service.Enabled(s, i)
    ensures var d := Service.Step(cfg, s, i).core;
      || d == s.core
      || (i.Submit? && Enabled(s.core, Start(i.job)) && d == Step(s.core, Start(i.job)))
      || (i.Happens? && !i.event.Start? && Enabled(s.core, i.event) && d == Step(s.core, i.event))
  {
    hide Step, Service.Answer, Final, Applied;
  }

  lemma {:induction false} RunIsOnce(cfg: Service.Config, s: Service.State, ins: seq<Service.Input>, j: JobId)
    requires Service.Possible(cfg, s, ins) && OnceOk(s.core, j)
    ensures OnceOk(Service.After(cfg, s, ins).core, j)
    decreases |ins|
  {
    hide Service.Step, Service.Enabled, OnceOk, Step, Enabled;
    if ins != [] {
      InputIsStep(cfg, s, ins[0]);
      if ins[0].Submit? && Enabled(s.core, Start(ins[0].job)) { StepIsOnce(s.core, Start(ins[0].job), j); }
      if ins[0].Happens? && Enabled(s.core, ins[0].event) { StepIsOnce(s.core, ins[0].event, j); }
      RunIsOnce(cfg, Service.Step(cfg, s, ins[0]), ins[1..], j);
    }
  }

  /** Job `j` is past its broadcast for good, with its transaction on the ledger. */
  ghost predicate Kept(c: Core, j: JobId) {
    OnLedger(c, j) && (c.procs[j].phase.AwaitingRespond? || Over(c.procs[j].phase))
  }

  lemma OwnStaysPast(c: Core, e: Event, j: JobId)
    requires Enabled(c, e) && !e.Start? && Service.OwnerOf(e) == Some(j) && j in c.procs
    requires c.procs[j].phase.AwaitingRespond? || Over(c.procs[j].phase)
    ensures j in Step(c, e).procs && (Over(Step(c, e).procs[j].phase) || Step(c, e).procs[j].phase.AwaitingRespond?)
  {
    hide Close;
    CloseEnds(c, j);
  }

  lemma KeptStays(c: Core, e: Event, j: JobId)
    requires Enabled(c, e) && Kept(c, j)
    ensures Kept(Step(c, e), j)
  {
    if e.Start? {
      StartKeepsLedger(c, e.job, j);
    } else {
      hide Step, Enabled;
      OnLedgerStays(c, e, j);
      if Service.OwnerOf(e) == Some(j) { OwnStaysPast(c, e, j); } else { OthersPhase(c, e, j); }
    }
  }

  lemma {:induction false} RunKeeps(cfg: Service.Config, s: Service.State, ins: seq<Service.Input>, j: JobId)
    requires Service.Possible(cfg, s, ins) && Kept(s.core, j)
    ensures Kept(Service.After(cfg, s, ins).core, j)
    decreases |ins|
  {
    hide Service.Step, Service.Enabled, Kept, Step, Enabled;
    if ins != [] {
      InputIsStep(cfg, s, ins[0]);
      if ins[0].Submit? && Enabled(s.core, Start(ins[0].job)) { KeptStays(s.core, Start(ins[0].job), j); }
      if ins[0].Happens? && Enabled(s.core, ins[0].event) { KeptStays(s.core, ins[0].event, j); }
      RunKeeps(cfg, Service.Step(cfg, s, ins[0]), ins[1..], j);
    }
  }

  /** The job's transaction stands exactly once on the ledger of the address it leased, and on no other. */
  ghost predicate MinedExactlyOnce(c: Core, j: JobId) {
    && OnLedger(c, j)
    && var at := c.procs[j].worker.value;
       && multiset(c.chain[at].ledger)[j] == 1
       && forall i :: 0 <= i < |c.chain| && i != at ==> j !in c.chain[i].ledger
  }

  lemma OnceOnLedger(c: Core, j: JobId)
    requires OnLedger(c, j) && AtMostOnce(c, j)
    ensures MinedExactlyOnce(c, j)
  {
    var at := c.procs[j].worker.value;
    assert multiset(c.chain[at].ledger)[j] >= 1;
    forall i | 0 <= i < |c.chain| && i != at ensures j !in c.chain[i].ledger {
      assert Weight(c.chain[i], j) == 0;
      assert j in multiset(c.chain[i].ledger) <==> j in c.chain[i].ledger;
    }
  }

  lemma FreshIsOnce(s: Service.State, j: JobId)
    requires Service.Init(s) && forall i :: 0 <= i < |s.core.chain| ==> j !in s.core.chain[i].ledger
    ensures OnceOk(s.core, j) && RecordIsMined(s, j)
  {
    forall i | 0 <= i < |s.core.chain| ensures Weight(s.core.chain[i], j) == 0 {
      assert (set x | x in s.core.chain[i].outstanding && x.job == j) == {};
    }
  }

  lemma ConfirmedIsKept(cfg: Service.Config, s: Service.State, j: JobId)
    requires Inv(cfg, s) && RecordIsMined(s, j) && j in s.store.jobs && IsConfirmed(s.store.jobs[j].state)
    ensures Kept(s.core, j)
  {
    ServiceLifecycle.StoreFits(cfg, s, j);
    hide Inv, JobOk;
  }

  /**
   * Over every run of the service, nonce-safe or not: once the record of a job says confirmed or responded, in that
   * state and in every later one its transaction stands exactly once on the ledger of the address it leased, and on
   * no other, even after the record itself is gone. The job's id is new: no ledger names it at the start.
   */
  lemma ConfirmedMeansMinedOnce(cfg: Service.Config, s: Service.State, ins: seq<Service.Input>,
      more: seq<Service.Input>, j: JobId)
    requires Service.Init(s) && forall i :: 0 <= i < |s.core.chain| ==> j !in s.core.chain[i].ledger
    requires Service.Possible(cfg, s, ins) && Service.Possible(cfg, Service.After(cfg, s, ins), more)
    requires var t := Service.After(cfg, s, ins); j in t.store.jobs && IsConfirmed(t.store.jobs[j].state)
    ensures MinedExactlyOnce(Service.After(cfg, Service.After(cfg, s, ins), more).core, j)
  {
    FreshIsOnce(s, j);
    InitInv(cfg, s);
    hide Inv, Service.Init, Service.Possible, Service.After, OnceOk, RecordIsMined, MinedExactlyOnce, Kept;
    RunIsOnce(cfg, s, ins, j);
    RunKeepsMined(cfg, s, ins, j);
    RunKeepsInv(cfg, s, ins);
    var t := Service.After(cfg, s, ins);
    ConfirmedIsKept(cfg, t, j);
    RunIsOnce(cfg, t, more, j);
    RunKeeps(cfg, t, more, j);
    KeptOnce(Service.After(cfg, t, more).core, j);
  }

  lemma KeptOnce(c: Core, j: JobId)
    requires Kept(c, j) && OnceOk(c, j)
    ensures MinedExactlyOnce(c, j)
  {
    OnceOnLedger(c, j);
  }

  /** A job never gets more than one transaction mined, whatever its record says. */
  lemma MinedAtMostOnce(cfg: Service.Config, s: Service.State, ins: seq<Service.Input>, j: JobId)
    requires Service.Init(s) && forall i :: 0 <= i < |s.core.chain| ==> j !in s.core.chain[i].ledger
    requires Service.Possible(cfg, s, ins)
    ensures AtMostOnce(Service.After(cfg, s, ins).core, j)
  {
    FreshIsOnce(s, j);
    hide Service.Init, Service.Possible, Service.After, AtMostOnce;
    RunIsOnce(cfg, s, ins, j);
  }
}
