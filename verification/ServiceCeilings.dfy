/**
 * How many jobs can be live at once. Jobs that wait for their respond hold no address and do not count as active, so
 * a service with a single address can fill both ceilings; and `maxJobs` alone bounds the live jobs of a service in
 * hardly any configuration.
 */
module ServiceCeilings {
  import opened Options
  import Pool = PoolModel
  import opened JobProtocol
  import Store = StoreModel
  import StoreSafety
  import Limiter = RateLimiter
  import Service
  import opened ServiceRuns
  import ServiceTheorems
  import opened ServiceScenarios
  import opened StaleClear

  type State = Service.State
  type Input = Service.Input
  type Config = Service.Config

  // ------------------------------------------------------------------ one job, to its confirmation

  /** From the accepted broadcast to the receipt. */
  ghost function ToReceipt(j: JobId, n: nat): seq<Event> { [SendReturns(j), Mine(0, Tx(j, n)), Receipt(j, true)] }

  /** `c` with job `j` waiting for its respond: its transaction is mined and the address is free again. */
  ghost function Waiting(c: Core, j: JobId): Core
    requires Idle(c)
  {
    var w, a := c.pool.workers[0], c.chain[0];
    c.(pool := Pool.Lease(c.pool.(next := c.pool.next + 1), 0, c.pool.next).(
         workers := [w.(busy := false, leases := w.leases + 1, lessee := None)]),
       callers := c.callers + [j],
       procs := c.procs[j := Proc(AwaitingRespond, Some(c.pool.next), Some(0), true, false)],
       chain := [Account(a.ledger + [j], {})])
  }

  ghost function ReceiptStates(c: Core, j: JobId): seq<Core>
    requires Idle(c)
  {
    var sent, a := StaleClear.Sent(c, j), c.chain[0];
    var confirming := Proc(Confirming(Latest(a)), Some(c.pool.next), Some(0), false, false);
    [ sent,
      sent.(procs := c.procs[j := confirming]),
      sent.(procs := c.procs[j := confirming], chain := [Account(a.ledger + [j], {})]),
      Waiting(c, j) ]
  }

  lemma ReceiptStep(c: Core, j: JobId, i: nat)
    requires Idle(c) && c.chain[0].outstanding == {} && i < 3
    ensures var n := Latest(c.chain[0]);
      && Enabled(ReceiptStates(c, j)[i], ToReceipt(j, n)[i])
      && Step(ReceiptStates(c, j)[i], ToReceipt(j, n)[i]) == ReceiptStates(c, j)[i + 1]
  {
    var n := Latest(c.chain[0]);
    var d, e := ReceiptStates(c, j)[i], ReceiptStates(c, j)[i + 1];
    if i == 0 {
      assert Goto(d, j, Confirming(n)).procs == e.procs;
    } else if i == 1 {
      assert Mined(d.chain[0], Tx(j, n)) == Account(c.chain[0].ledger + [j], {});
    } else {
      FreesTheAddress(c, j);
    }
  }

  lemma FreesTheAddress(c: Core, j: JobId)
    requires Idle(c)
    ensures Close(ReceiptStates(c, j)[2], j, AwaitingRespond) == Waiting(c, j)
  {
    var d := ReceiptStates(c, j)[2];
    var p := Pool.Free(d.pool, 0);
    assert p.workers == Waiting(c, j).pool.workers;
    assert Pool.Release(d.pool, 0) == p;
    assert Close(d, j, AwaitingRespond).procs == Waiting(c, j).procs;
  }

  lemma GetsReceipt(c: Core, j: JobId)
    requires Idle(c) && c.chain[0].outstanding == {}
    ensures var es := ToReceipt(j, Latest(c.chain[0]));
      Possible(StaleClear.Sent(c, j), es) && After(StaleClear.Sent(c, j), es) == Waiting(c, j)
  {
    var states, es := ReceiptStates(c, j), ToReceipt(j, Latest(c.chain[0]));
    forall i | 0 <= i < 3 ensures Enabled(states[i], es[i]) && Step(states[i], es[i]) == states[i + 1] {
      ReceiptStep(c, j, i);
    }
    hide Step, Enabled;
    Trace(states, es);
  }

  /** What follows the start of a job that gets all the way to its respond wait. */
  ghost function ToWait(j: JobId, n: nat): seq<Event> {
    (ToBroadcast(j) + [NodeAccepts(j)] + ToReceipt(j, n))[1..]
  }

  lemma StartsThenWaits(c: Core, j: JobId)
    requires Idle(c) && c.chain[0].outstanding == {} && j !in c.procs && OfJob(j) !in c.sweeps
    ensures Enabled(c, Start(j))
    ensures var es := ToWait(j, Latest(c.chain[0]));
      && Possible(Step(c, Start(j)), es) && After(Step(c, Start(j)), es) == Waiting(c, j)
      && forall e :: e in es ==> !e.Start?
  {
    var es := ToReceipt(j, Latest(c.chain[0]));
    hide Step, Enabled, Waiting;
    Sends(c, j);
    GetsReceipt(c, j);
    RunsJoin(c, ToBroadcast(j) + [NodeAccepts(j)], es);
    assert (ToBroadcast(j) + [NodeAccepts(j)] + es)[0] == Start(j);
    OnlyOneStart(j, Latest(c.chain[0]));
  }

  lemma OnlyOneStart(j: JobId, n: nat)
    ensures forall e :: e in ToWait(j, n) ==> !e.Start?
  {
  }

  // ------------------------------------------------------------------ filling the waiting jobs

  /** Jobs `0` to `m - 1` wait for their responds, and the address is free. */
  ghost predicate Ready(c: Core, m: nat) {
    && Idle(c) && c.chain[0].outstanding == {} && c.sweeps == map[]
    && (forall j: JobId :: j in c.procs <==> j < m)
    && (forall j :: j in c.procs ==> c.procs[j].phase.AwaitingRespond?)
  }

  lemma StaysReady(c: Core, m: nat)
    requires Ready(c, m)
    ensures Ready(Waiting(c, m), m + 1)
  {
  }

  ghost function Numbers(from: nat, upTo: nat): (r: set<JobId>)
    requires from <= upTo
    ensures |r| == upTo - from
    ensures forall j: JobId :: j in r <==> from <= j < upTo
    decreases upTo
  {
    if from == upTo then {} else Numbers(from, upTo - 1) + {upTo - 1}
  }

  /** Of the waiting jobs and the ones behind them: those with a number below `m` wait for their respond. */
  ghost predicate Filled(c: Core, m: nat, k: nat) {
    && (forall j: JobId :: j in c.procs <==> j < m + k)
    && (forall j: JobId :: j < m ==> j in c.procs && c.procs[j].phase.AwaitingRespond?)
    && (forall j: JobId :: m <= j < m + k ==> j in c.procs && c.procs[j].phase.Deriving?)
  }

  lemma Counts(c: Core, m: nat, k: nat)
    requires Filled(c, m, k)
    ensures |WaitingJobs(c)| == m && |ActiveJobs(c)| == k
  {
    assert WaitingJobs(c) == Numbers(0, m);
    assert ActiveJobs(c) == Numbers(m, m + k);
  }

  lemma ReadyIsFilled(c: Core, m: nat)
    requires Ready(c, m)
    ensures Filled(c, m, 0)
  {
  }

  /** One more job is accepted, runs to its confirmation and waits for its respond. */
  lemma OneMoreWaits(cfg: Config, s: State, m: nat) returns (ins: seq<Input>)
    requires Inv(cfg, s) && Ready(s.core, m)
    requires cfg.limits.maxActive > 0 && m < cfg.limits.maxJobs && cfg.rate.limit > 0
    ensures Service.Possible(cfg, s, ins) && Ready(Service.After(cfg, s, ins).core, m + 1)
  {
    ReadyIsFilled(s.core, m);
    Counts(s.core, m, 0);
    StartsThenWaits(s.core, m);
    StaysReady(s.core, m);
    hide Inv, Step, Enabled, ActiveJobs, WaitingJobs, Ready, Waiting, ToWait, Filled;
    ins := AdmitsThen(cfg, s, m, ToWait(m, Latest(s.core.chain[0])));
  }

  lemma {:induction false} FillWaiting(cfg: Config, s: State, m: nat) returns (ins: seq<Input>)
    requires Inv(cfg, s) && Ready(s.core, m)
    requires cfg.limits.maxActive > 0 && m < cfg.limits.maxJobs && cfg.rate.limit > 0
    ensures Service.Possible(cfg, s, ins) && Ready(Service.After(cfg, s, ins).core, cfg.limits.maxJobs - 1)
    decreases cfg.limits.maxJobs - m
  {
    hide Inv, Ready, Service.Step, Service.Enabled;
    if m == cfg.limits.maxJobs - 1 {
      ins := [];
    } else {
      var first := OneMoreWaits(cfg, s, m);
      RunKeepsInv(cfg, s, first);
      var rest := FillWaiting(cfg, Service.After(cfg, s, first), m + 1);
      InputsJoin(cfg, s, first, rest);
      ins := first + rest;
    }
  }

  // ------------------------------------------------------------------ filling the active jobs

  lemma StartFills(c: Core, m: nat, k: nat)
    requires Filled(c, m, k)
    ensures Enabled(c, Start(m + k)) && Filled(Step(c, Start(m + k)), m, k + 1)
  {
  }

  /** One more job is accepted. */
  lemma OneMoreStarts(cfg: Config, s: State, m: nat, k: nat)
    requires Inv(cfg, s) && Filled(s.core, m, k)
    requires k < cfg.limits.maxActive && m < cfg.limits.maxJobs && cfg.rate.limit > 0
    ensures var i := NextSubmit(cfg, s, m + k);
      Service.Enabled(s, i) && Filled(Service.Step(cfg, s, i).core, m, k + 1)
  {
    hide Inv, Step, Enabled, Service.Step, Service.Enabled, ActiveJobs, WaitingJobs;
    StartFills(s.core, m, k);
    Counts(s.core, m, k);
    AdmitsWhenRoom(cfg, s, m + k);
  }

  lemma {:induction false} FillActive(cfg: Config, s: State, m: nat, k: nat) returns (ins: seq<Input>)
    requires Inv(cfg, s) && Filled(s.core, m, k)
    requires k <= cfg.limits.maxActive && m < cfg.limits.maxJobs && cfg.rate.limit > 0
    ensures Service.Possible(cfg, s, ins) && Filled(Service.After(cfg, s, ins).core, m, cfg.limits.maxActive)
    decreases cfg.limits.maxActive - k
  {
    hide Inv, Filled, Service.Step, Service.Enabled;
    if k == cfg.limits.maxActive {
      ins := [];
    } else {
      OneMoreStarts(cfg, s, m, k);
      var i := NextSubmit(cfg, s, m + k);
      StepKeepsInv(cfg, s, i);
      var rest := FillActive(cfg, Service.Step(cfg, s, i), m, k + 1);
      ins := [i] + rest;
      assert ins[1..] == rest;
    }
  }

  // ------------------------------------------------------------------ the bound on live jobs

  lemma FreshIsReady()
    ensures Service.Init(FreshService()) && Ready(FreshService().core, 0)
  {
    FreshIsIdle();
  }

  lemma FillBoth(cfg: Config, s: State) returns (ins: seq<Input>)
    requires Inv(cfg, s) && Ready(s.core, 0)
    requires cfg.limits.maxActive > 0 && cfg.limits.maxJobs > 0 && cfg.rate.limit > 0
    ensures Service.Possible(cfg, s, ins)
    ensures Filled(Service.After(cfg, s, ins).core, cfg.limits.maxJobs - 1, cfg.limits.maxActive)
  {
    hide Inv, Ready, Filled, Service.Step, Service.Enabled;
    var first := FillWaiting(cfg, s, 0);
    RunKeepsInv(cfg, s, first);
    var t := Service.After(cfg, s, first);
    ReadyIsFilled(t.core, cfg.limits.maxJobs - 1);
    var rest := FillActive(cfg, t, cfg.limits.maxJobs - 1, 0);
    InputsJoin(cfg, s, first, rest);
    ins := first + rest;
  }

  /** The run ends with so many live jobs. */
  ghost predicate Reaches(cfg: Config, s: State, ins: seq<Input>, live: nat) {
    Service.Possible(cfg, s, ins) && |Store.LiveIds(Service.After(cfg, s, ins).store)| == live
  }

  /**
   * The bound on live jobs is tight for the whole service, limiter and pool included: with positive limits a fresh
   * service with one address reaches it.
   */
  lemma LiveBoundIsReached(cfg: Config) returns (ins: seq<Input>)
    requires cfg.limits.maxActive > 0 && cfg.limits.maxJobs > 0 && cfg.rate.limit > 0
    ensures Service.Init(FreshService())
    ensures Reaches(cfg, FreshService(), ins, cfg.limits.maxActive + cfg.limits.maxJobs - 1)
  {
    FreshIsReady();
    var s := FreshService();
    InitInv(cfg, s);
    hide Inv, Ready, Filled, Service.Init, Service.Possible, Service.After, FreshService;
    ins := FillBoth(cfg, s);
    RunKeepsInv(cfg, s, ins);
    LiveCount(cfg, Service.After(cfg, s, ins), cfg.limits.maxJobs - 1, cfg.limits.maxActive);
  }

  lemma LiveCount(cfg: Config, s: State, m: nat, k: nat)
    requires Inv(cfg, s) && Filled(s.core, m, k)
    ensures |Store.LiveIds(s.store)| == m + k
  {
    JobsAreRecorded(cfg, s);
    Counts(s.core, m, k);
    SoundIsWellFormed(cfg, s);
    StoreSafety.CountsAddUp(s.store);
  }

  /** In no run are more jobs live than `maxJobs`. */
  ghost predicate MaxJobsBoundsTheLive(cfg: Config) {
    forall s, ins :: Service.Init(s) && Service.Possible(cfg, s, ins) ==>
      |Store.LiveIds(Service.After(cfg, s, ins).store)| <= cfg.limits.maxJobs
  }

  /**
   * `maxJobs` bounds the live jobs of a service if and only if at most one job may be active at once, or no job is
   * accepted at all.
   */
  lemma MaxJobsBoundsExactlyWhen(cfg: Config)
    ensures MaxJobsBoundsTheLive(cfg)
      <==> cfg.limits.maxActive <= 1 || cfg.limits.maxJobs == 0 || cfg.rate.limit == 0
  {
    hide Service.Init, Service.Possible, Service.After, Store.LiveIds, FreshService;
    if cfg.limits.maxActive <= 1 || cfg.limits.maxJobs == 0 || cfg.rate.limit == 0 {
      forall s, ins | Service.Init(s) && Service.Possible(cfg, s, ins)
        ensures |Store.LiveIds(Service.After(cfg, s, ins).store)| <= cfg.limits.maxJobs
      {
        LiveWithin(cfg, s, ins);
      }
    } else {
      var ins := LiveBoundIsReached(cfg);
      assert |Store.LiveIds(Service.After(cfg, FreshService(), ins).store)| > cfg.limits.maxJobs;
    }
  }

  lemma LiveWithin(cfg: Config, s: State, ins: seq<Input>)
    requires Service.Init(s) && Service.Possible(cfg, s, ins)
    requires cfg.limits.maxActive <= 1 || cfg.limits.maxJobs == 0 || cfg.rate.limit == 0
    ensures |Store.LiveIds(Service.After(cfg, s, ins).store)| <= cfg.limits.maxJobs
  {
    hide Service.Init, Service.Possible, Service.After, Inv;
    ServiceTheorems.CapacityHolds(cfg, s, ins);
    InitInv(cfg, s);
    RunKeepsInv(cfg, s, ins);
    if cfg.rate.limit == 0 { NothingAccepted(cfg, Service.After(cfg, s, ins)); }
  }

  /** With intake frozen there are no jobs. */
  lemma NothingAccepted(cfg: Config, s: State)
    requires Inv(cfg, s) && cfg.rate.limit == 0
    ensures Store.LiveIds(s.store) == {}
  {
    assert forall j :: j in s.born ==> j in BornWithin(s.born, s.born[j] - 1, s.born[j]);
    forall from: int, upTo: int ensures BornWithin(s.born, from, upTo) == {} {
      assert Limiter.Within(s.log, from, upTo) == |BornWithin(s.born, from, upTo)|;
    }
  }
}
