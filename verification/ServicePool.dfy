/** What callers of the service get from the pool: leases, order and settlement in every run of the service. */
module ServicePool {
  import Pool = PoolModel
  import F = PoolFairness
  import Protocol = JobProtocol
  import opened Service
  import opened ServiceNonces
  import LeaseSafety
  import LeaseTheorems
  import PoolRuns

  /** The pool calls of a run of the service. */
  function PoolCalls(cfg: Config, s: State, ins: seq<Input>): seq<Pool.Op>
    requires Possible(cfg, s, ins) && Protocol.Possible(s.core, CoreEvents(cfg, s, ins))
  {
    PoolRuns.AllCalls(s.core, CoreEvents(cfg, s, ins))
  }

  lemma FreshIsOrdered(size: nat)
    ensures F.Quiet(Pool.Fresh(size)) && F.Ordered(Pool.Fresh(size)) && Pool.WellFormed(Pool.Fresh(size))
  {
  }

  /**
   * In every run of the service from a fresh start: the pool is what the run's calls make of a fresh one; those who
   * had to queue were granted in arrival order; and every arrival was granted, refused or abandoned, or is queued.
   */
  lemma WaitersAreServed(cfg: Config, s: State, ins: seq<Input>)
    requires Init(s) && Possible(cfg, s, ins)
    ensures Protocol.Possible(s.core, CoreEvents(cfg, s, ins))
    ensures var p, calls, fresh0 := After(cfg, s, ins).core.pool, PoolCalls(cfg, s, ins), Pool.Fresh(|s.core.chain|);
      && PoolRuns.MakesOf(fresh0, calls, p)
      && F.InOrder(p, F.EverQueued(fresh0, calls))
      && p.next == |p.grants| + |F.Refusals(p)| + |F.Abandonments(p)| + |p.waiters|
  {
    hide Possible, Protocol.Step, Step, CoreEvents, F.EverQueued, F.InOrder, Pool.WellFormed;
    RunsAreProtocolRuns(cfg, s, ins);
    var es, size := CoreEvents(cfg, s, ins), |s.core.chain|;
    PoolRuns.RunMakes(s.core, es);
    FreshIsOrdered(size);
    F.QueueIsFifo(size, PoolRuns.AllCalls(s.core, es));
    F.SettledOnce(Pool.Fresh(size), PoolRuns.AllCalls(s.core, es));
  }

  /**
   * Nobody is ever overtaken in a run of the service if and only if no job asks for an address, and gets one, while
   * others queue. That is so whenever nobody waits beside an eligible address, and nobody does if and only if no
   * sweep and no refresh makes one eligible beside a queue.
   */
  lemma NobodyOvertakes(cfg: Config, s: State, ins: seq<Input>)
    requires Init(s) && Possible(cfg, s, ins)
    ensures Protocol.Possible(s.core, CoreEvents(cfg, s, ins))
    ensures PoolRuns.AlwaysOrdered(s.core, CoreEvents(cfg, s, ins))
      <==> PoolRuns.NeverPasses(s.core, CoreEvents(cfg, s, ins))
    ensures PoolRuns.AlwaysQuiet(s.core, CoreEvents(cfg, s, ins))
      <==> PoolRuns.NeverWakes(s.core, CoreEvents(cfg, s, ins))
    ensures PoolRuns.NeverWakes(s.core, CoreEvents(cfg, s, ins))
      ==> PoolRuns.NeverPasses(s.core, CoreEvents(cfg, s, ins))
    ensures PoolRuns.NeverPasses(s.core, CoreEvents(cfg, s, ins))
      ==> Pool.Increasing(After(cfg, s, ins).core.pool.grants)
  {
    LeaseSafety.InitLeases(s.core);
    FreshIsOrdered(|s.core.chain|);
    hide Possible, Protocol.Step, Step, CoreEvents, F.Quiet, F.Ordered, LeaseSafety.Leases;
    RunsAreProtocolRuns(cfg, s, ins);
    var es := CoreEvents(cfg, s, ins);
    PoolRuns.QuietExactlyWhenNeverWoken(s.core, es);
    PoolRuns.OrderedExactlyWhenNeverPassed(s.core, es);
    if PoolRuns.NeverWakes(s.core, es) { PoolRuns.QuietIsOrdered(s.core, es); }
    if PoolRuns.NeverPasses(s.core, es) { PoolRuns.LastIsOrdered(s.core, es); }
  }

  /** In every reachable state of the service busy addresses and the jobs that occupy them are in bijection. */
  lemma AddressesAreExclusive(cfg: Config, s: State, ins: seq<Input>)
    requires Init(s) && Possible(cfg, s, ins)
    ensures var c := After(cfg, s, ins).core;
      && (forall i :: 0 <= i < |c.pool.workers| ==>
            (c.pool.workers[i].busy <==> exists j :: LeaseTheorems.Occupies(c, j, i)))
      && (forall j, k, i: Pool.Place :: LeaseTheorems.Occupies(c, j, i) && LeaseTheorems.Occupies(c, k, i) ==> j == k)
      && (forall j, i: Pool.Place, m: Pool.Place ::
            LeaseTheorems.Occupies(c, j, i) && LeaseTheorems.Occupies(c, j, m) ==> i == m)
  {
    hide Possible, Protocol.Step, Step, CoreEvents, LeaseTheorems.Occupies;
    RunsAreProtocolRuns(cfg, s, ins);
    LeaseTheorems.LeasesAreExclusive(s.core, CoreEvents(cfg, s, ins));
  }

  /** In every run of the service the pool ends exactly one lease of a job that is over, or it never had one. */
  lemma LeaseEndsOnce(cfg: Config, s: State, ins: seq<Input>, j: JobId)
    requires Init(s) && Possible(cfg, s, ins)
    requires var c := After(cfg, s, ins).core; j in c.procs && Protocol.Over(c.procs[j].phase)
    ensures Protocol.Possible(s.core, CoreEvents(cfg, s, ins))
    ensures LeaseTheorems.LeasesEnded(s.core, CoreEvents(cfg, s, ins), j)
      == if After(cfg, s, ins).core.procs[j].worker.Some? then 1 else 0
  {
    hide Possible, Protocol.Step, Step, CoreEvents, LeaseTheorems.LeasesEnded;
    RunsAreProtocolRuns(cfg, s, ins);
    LeaseTheorems.LeaseGivenBackExactlyOnce(s.core, CoreEvents(cfg, s, ins), j);
  }
}
