/**
 * The run in which a stale verdict breaks nonce safety: a sweep reads its two counts, another
 * sweep clears the quarantine, a second job leases the address and is quarantined in turn, and
 * only then the first sweep acts on what it read.
 */
module StaleClear {
  import opened Options
  import opened PoolModel
  import opened JobProtocol

  lemma {:induction false} Trace(states: seq<Core>, es: seq<Event>)
    requires |states| == |es| + 1
    requires forall i :: 0 <= i < |es| ==> Enabled(states[i], es[i]) && Step(states[i], es[i]) == states[i + 1]
    ensures Possible(states[0], es) && After(states[0], es) == states[|es|]
    decreases |es|
  {
    if es != [] {
      assert Step(states[0], es[0]) == states[1];
      forall i | 0 <= i < |es[1..]|
        ensures Enabled(states[1..][i], es[1..][i]) && Step(states[1..][i], es[1..][i]) == states[1..][i + 1]
      {
        assert Enabled(states[i + 1], es[i + 1]) && Step(states[i + 1], es[i + 1]) == states[i + 2];
      }
      Trace(states[1..], es[1..]);
    }
  }

  // ------------------------------------------------------------------ one job, from idle to broadcast

  /** A pool of one free, funded address, with nobody waiting. */
  ghost predicate Idle(c: Core) {
    && |c.pool.workers| == 1 && c.pool.workers[0].Eligible() && c.pool.waiters == []
    && |c.chain| == 1 && c.floor == 0
  }

  /** `c` with job `j` leasing the address and suspended at `ph`. */
  ghost function Leasing(c: Core, j: JobId, ph: Phase): Core
    requires Idle(c)
  {
    c.(pool := Lease(c.pool.(next := c.pool.next + 1), 0, c.pool.next),
       callers := c.callers + [j],
       procs := c.procs[j := Proc(ph, Some(c.pool.next), Some(0), false, false)])
  }

  ghost function Entering(c: Core, j: JobId, ph: Phase): Core {
    c.(procs := c.procs[j := Proc(ph, None, None, false, false)])
  }

  lemma Enters(c: Core, j: JobId)
    requires Idle(c) && j !in c.procs && OfJob(j) !in c.sweeps
    ensures Possible(c, Entry(j)) && After(c, Entry(j)) == Leasing(c, j, CheckingBalance)
  {
    var deriving := Entering(c, j, Deriving);
    var sweeping := Entering(c, j, Sweeping).(sweeps := c.sweeps[OfJob(j) := Sweep([], 0, None, None)]);
    var refreshing := Entering(c, j, Refreshing(1));
    var granted := Leasing(c, j, AwaitingLease).(
      procs := c.procs[j := Proc(AwaitingLease, Some(c.pool.next), None, false, false)]);
    SweepsNothing(c, j, deriving, sweeping, refreshing);
    GetsLease(c, j, refreshing, granted);
    var states := [c, deriving, sweeping, refreshing, granted, Leasing(c, j, CheckingBalance)];
    var es := Entry(j);
    forall i | 0 <= i < 5 ensures Enabled(states[i], es[i]) && Step(states[i], es[i]) == states[i + 1] {}
    Trace(states, es);
  }

  lemma SweepsNothing(c: Core, j: JobId, deriving: Core, sweeping: Core, refreshing: Core)
    requires Idle(c) && j !in c.procs && OfJob(j) !in c.sweeps
    requires deriving == Entering(c, j, Deriving)
    requires sweeping == Entering(c, j, Sweeping).(sweeps := c.sweeps[OfJob(j) := Sweep([], 0, None, None)])
    requires refreshing == Entering(c, j, Refreshing(1))
    ensures Enabled(deriving, Derived(j)) && Step(deriving, Derived(j)) == sweeping
    ensures Enabled(sweeping, SweepEnds(OfJob(j))) && Step(sweeping, SweepEnds(OfJob(j))) == refreshing
  {
    assert Quarantined(c.pool.workers, 1) == [];
    assert Quarantined(c.pool.workers, 0) == [];
    assert NextShort(c.pool.workers, 1) == 1;
    assert NextShort(c.pool.workers, 0) == 1;
    assert sweeping.sweeps - {OfJob(j)} == c.sweeps;
    assert Goto(deriving, j, Sweeping).procs == sweeping.procs;
    assert Goto(sweeping, j, Refreshing(1)).procs == refreshing.procs;
  }

  lemma GetsLease(c: Core, j: JobId, refreshing: Core, granted: Core)
    requires Idle(c) && refreshing == Entering(c, j, Refreshing(1))
    requires granted == Leasing(c, j, AwaitingLease).(
      procs := c.procs[j := Proc(AwaitingLease, Some(c.pool.next), None, false, false)])
    ensures Enabled(refreshing, AsksLease(j)) && Step(refreshing, AsksLease(j)) == granted
    ensures Enabled(granted, LeaseSettles(j)) && Step(granted, LeaseSettles(j)) == Leasing(c, j, CheckingBalance)
  {
    assert Available(c.pool) == Some(0);
    assert AskLease(refreshing, j).procs == granted.procs;
    assert SettleLease(granted, j).procs == Leasing(c, j, CheckingBalance).procs;
  }

  ghost function Phases(n: nat): seq<Phase> {
    [CheckingBalance, ReadingNonce(0), Estimating(0, n), Instructing(n), SendingRequest(n), AwaitingSignature(n),
     Attaching(n), Broadcasting(n, false)]
  }

  ghost function Advances(j: JobId): seq<Event> {
    [BalanceRead(j, 0), NonceRead(j), Estimated(j, 0), Instructed(j), RequestSent(j), Signed(j), Attached(j, true)]
  }

  lemma Advance(c: Core, j: JobId, i: nat)
    requires Idle(c) && i < 7
    ensures var n := Latest(c.chain[0]); var d := Leasing(c, j, Phases(n)[i]);
      && Enabled(d, Advances(j)[i])
      && Step(d, Advances(j)[i]) == Leasing(c, j, Phases(n)[i + 1])
  {
    var n := Latest(c.chain[0]);
    var d, e := Leasing(c, j, Phases(n)[i]), Leasing(c, j, Phases(n)[i + 1]);
    assert Goto(d, j, Phases(n)[i + 1]).procs == e.procs;
  }

  /** The job's first `k` segments past its lease. */
  lemma AdvancesTo(c: Core, j: JobId, k: nat)
    requires Idle(c) && k <= 7
    ensures Possible(Leasing(c, j, CheckingBalance), Advances(j)[..k])
    ensures After(Leasing(c, j, CheckingBalance), Advances(j)[..k]) == Leasing(c, j, Phases(Latest(c.chain[0]))[k])
  {
    var n := Latest(c.chain[0]);
    var states := seq(k + 1, i requires 0 <= i < k + 1 => Leasing(c, j, Phases(n)[i]));
    forall i | 0 <= i < k
      ensures Enabled(states[i], Advances(j)[..k][i]) && Step(states[i], Advances(j)[..k][i]) == states[i + 1]
    {
      Advance(c, j, i);
    }
    Trace(states, Advances(j)[..k]);
  }

  ghost function Entry(j: JobId): seq<Event> {
    [Start(j), Derived(j), SweepEnds(OfJob(j)), AsksLease(j), LeaseSettles(j)]
  }

  ghost function ToBroadcast(j: JobId): seq<Event> {
    Entry(j) + Advances(j)
  }

  /** The job's broadcast is accepted by a node. */
  ghost function Sent(c: Core, j: JobId): Core
    requires Idle(c)
  {
    var a := c.chain[0];
    Leasing(c, j, Broadcasting(Latest(a), true)).(chain := [a.(outstanding := a.outstanding + {Tx(j, Latest(a))})])
  }

  lemma ReachesBroadcast(c: Core, j: JobId)
    requires Idle(c) && j !in c.procs && OfJob(j) !in c.sweeps
    ensures Possible(c, ToBroadcast(j))
    ensures After(c, ToBroadcast(j)) == Leasing(c, j, Broadcasting(Latest(c.chain[0]), false))
  {
    Enters(c, j);
    AdvancesTo(c, j, 7);
    assert Advances(j)[..7] == Advances(j);
    RunsJoin(c, Entry(j), Advances(j));
  }

  lemma Accepts(c: Core, j: JobId)
    requires Idle(c)
    ensures var d := Leasing(c, j, Broadcasting(Latest(c.chain[0]), false));
      Possible(d, [NodeAccepts(j)]) && After(d, [NodeAccepts(j)]) == Sent(c, j)
  {
    var d := Leasing(c, j, Broadcasting(Latest(c.chain[0]), false));
    assert Goto(d, j, Broadcasting(Latest(c.chain[0]), true)).procs == Sent(c, j).procs;
    Trace([d, Sent(c, j)], [NodeAccepts(j)]);
  }

  lemma Sends(c: Core, j: JobId)
    requires Idle(c) && j !in c.procs && OfJob(j) !in c.sweeps
    ensures Possible(c, ToBroadcast(j) + [NodeAccepts(j)])
    ensures After(c, ToBroadcast(j) + [NodeAccepts(j)]) == Sent(c, j)
  {
    ReachesBroadcast(c, j);
    Accepts(c, j);
    RunsJoin(c, ToBroadcast(j), [NodeAccepts(j)]);
  }

  /** ... and the response is lost: the address is withheld and the lease given back. */
  ghost function Withheld(c: Core, j: JobId): Core
    requires Idle(c)
  {
    var w, n := Sent(c, j).pool.workers[0], Latest(c.chain[0]);
    Sent(c, j).(
      pool := Sent(c, j).pool.(workers := [w.(busy := false, lessee := None, pendingNonce := Some(n),
        epoch := w.epoch + 1)]),
      procs := c.procs[j := Proc(Ended, Some(c.pool.next), Some(0), true, false)])
  }

  ghost function Lost(j: JobId): seq<Event> { ToBroadcast(j) + [NodeAccepts(j)] + [SendThrows(j)] }

  lemma LosesResponse(c: Core, j: JobId)
    requires Idle(c) && j !in c.procs && OfJob(j) !in c.sweeps
    ensures Possible(c, Lost(j)) && After(c, Lost(j)) == Withheld(c, j)
  {
    Sends(c, j);
    var d := Sent(c, j);
    GivesUp(c, j);
    Trace([d, Withheld(c, j)], [SendThrows(j)]);
    RunsJoin(c, ToBroadcast(j) + [NodeAccepts(j)], [SendThrows(j)]);
  }

  lemma GivesUp(c: Core, j: JobId)
    requires Idle(c)
    ensures Enabled(Sent(c, j), SendThrows(j)) && Step(Sent(c, j), SendThrows(j)) == Withheld(c, j)
  {
    var d, n := Sent(c, j), Latest(c.chain[0]);
    var p := Free(Quarantine(d.pool, 0, n), 0);
    assert p.workers == Withheld(c, j).pool.workers;
    assert Release(Quarantine(d.pool, 0, n), 0) == p;
    assert GiveUp(d, j).procs == Withheld(c, j).procs;
  }

  // ------------------------------------------------------------------ the stale verdict

  ghost function OneWorker(): Core {
    Core(PoolModel.Fresh(1), map[], [], [Account([], {})], map[], 0)
  }

  const FIRST := OfRequest(0)
  const SECOND := OfRequest(1)

  /** Two sweeps look at the withheld address after its transaction was mined; the second one clears it. */
  ghost function BothLook(): seq<Event> {
    [OpenSweep(0), Mine(0, Tx(0, 0)), ReadLatest(FIRST), ReadPending(FIRST),
     OpenSweep(1), ReadLatest(SECOND), ReadPending(SECOND), Verdict(SECOND)]
  }

  ghost function Seen(): Sweep { Sweep([0], 1, Some(1), Some(1)) }

  ghost function BothLookStates(c: Core): seq<Core>
    requires |c.pool.workers| == 1
  {
    var d := c.(chain := [Account([0], {})]);
    var untouched, half := Sweep([0], 0, None, None), Sweep([0], 1, Some(1), None);
    var cleared := c.pool.(workers := [c.pool.workers[0].(pendingNonce := None)]);
    [ c,
      c.(sweeps := map[FIRST := untouched]),
      d.(sweeps := map[FIRST := untouched]),
      d.(sweeps := map[FIRST := half]),
      d.(sweeps := map[FIRST := Seen()]),
      d.(sweeps := map[FIRST := Seen(), SECOND := untouched]),
      d.(sweeps := map[FIRST := Seen(), SECOND := half]),
      d.(sweeps := map[FIRST := Seen(), SECOND := Seen()]),
      d.(sweeps := map[FIRST := Seen(), SECOND := Sweep([], 0, None, None)], pool := cleared) ]
  }

  ghost predicate LostTheFirst(c: Core) {
    && |c.pool.workers| == 1 && c.pool.workers[0].pendingNonce == Some(0) && c.pool.workers[0].epoch == 1
    && c.chain == [Account([], {Tx(0, 0)})] && c.sweeps == map[]
  }

  lemma FirstLooks(c: Core, i: nat)
    requires LostTheFirst(c) && i < 5
    ensures Enabled(BothLookStates(c)[i], BothLook()[i])
    ensures Step(BothLookStates(c)[i], BothLook()[i]) == BothLookStates(c)[i + 1]
  {
    var d := BothLookStates(c)[i];
    if i == 0 || i == 4 {
      assert Quarantined(c.pool.workers, 1) == [];
      assert Quarantined(c.pool.workers, 0) == [0];
    } else if i == 1 {
      assert Mined(d.chain[0], Tx(0, 0)) == Account([0], {});
    } else if i == 3 {
      assert Pending(d.chain[0]) == 1;
    }
  }

  lemma SecondLooks(c: Core, i: nat)
    requires LostTheFirst(c) && 5 <= i < 8
    ensures Enabled(BothLookStates(c)[i], BothLook()[i])
    ensures Step(BothLookStates(c)[i], BothLook()[i]) == BothLookStates(c)[i + 1]
  {
    var d := BothLookStates(c)[i];
    if i == 6 {
      assert Pending(d.chain[0]) == 1;
    } else if i == 7 {
      assert [0][1..] == [];
    }
  }

  lemma ClearedOnce(c: Core)
    requires LostTheFirst(c)
    ensures Possible(c, BothLook()) && After(c, BothLook()) == BothLookStates(c)[8]
  {
    forall i | 0 <= i < 8
      ensures Enabled(BothLookStates(c)[i], BothLook()[i])
        && Step(BothLookStates(c)[i], BothLook()[i]) == BothLookStates(c)[i + 1]
    {
      if i < 5 { FirstLooks(c, i); } else { SecondLooks(c, i); }
    }
    Trace(BothLookStates(c), BothLook());
  }

  /** The first sweep's verdict on the address as the second job left it. */
  ghost function ClearedAgain(c: Core): Core
    requires |c.pool.workers| == 1
  {
    c.(pool := c.pool.(workers := [c.pool.workers[0].(pendingNonce := None)]),
       sweeps := c.sweeps[FIRST := Sweep([], 0, None, None)])
  }

  lemma ClearsAgain(c: Core)
    requires |c.pool.workers| == 1 && c.pool.workers[0].pendingNonce.Some? && |c.chain| == 1
    requires FIRST in c.sweeps && c.sweeps[FIRST] == Seen()
    ensures Possible(c, [Verdict(FIRST)]) && After(c, [Verdict(FIRST)]) == ClearedAgain(c)
  {
    assert Seen().todo[1..] == [];
    assert Reconcile(c.pool, 0, false).workers == ClearedAgain(c).pool.workers;
    assert Enabled(c, Verdict(FIRST));
    assert Judged(c, FIRST) == ClearedAgain(c);
    Trace([c, ClearedAgain(c)], [Verdict(FIRST)]);
  }

  /** The service after job 0's transaction was lost, mined, and its address cleared by the second sweep. */
  ghost function Reopened(): Core
    requires Idle(OneWorker())
  {
    BothLookStates(Withheld(OneWorker(), 0))[8]
  }

  lemma Reopens()
    ensures Idle(OneWorker()) && Idle(Reopened())
    ensures Possible(OneWorker(), Lost(0) + BothLook()) && After(OneWorker(), Lost(0) + BothLook()) == Reopened()
    ensures Reopened().chain == [Account([0], {})] && Reopened().procs.Keys == {0}
    ensures Reopened().sweeps == map[FIRST := Seen(), SECOND := Sweep([], 0, None, None)]
  {
    var c := OneWorker();
    var a := Withheld(c, 0);
    LosesResponse(c, 0);
    assert a.chain == [Account([], {Tx(0, 0)})] by { assert {} + {Tx(0, 0)} == {Tx(0, 0)}; }
    ClearedOnce(a);
    RunsJoin(c, Lost(0), BothLook());
  }

  lemma LosesThenClears(b: Core)
    requires Idle(b) && 1 !in b.procs && OfJob(1) !in b.sweeps && FIRST in b.sweeps && b.sweeps[FIRST] == Seen()
    ensures Possible(b, Lost(1) + [Verdict(FIRST)])
    ensures After(b, Lost(1) + [Verdict(FIRST)]) == ClearedAgain(Withheld(b, 1))
  {
    LosesResponse(b, 1);
    ClearsAgain(Withheld(b, 1));
    RunsJoin(b, Lost(1), [Verdict(FIRST)]);
  }

  lemma IdleAgain(b: Core)
    requires Idle(b) && b.chain == [Account([0], {})] && b.procs.Keys == {0} && OfJob(2) !in b.sweeps
    ensures var d := ClearedAgain(Withheld(b, 1));
      Idle(d) && 2 !in d.procs && OfJob(2) !in d.sweeps && d.chain == [Account([0], {Tx(1, 1)})]
  {
    assert {} + {Tx(1, 1)} == {Tx(1, 1)};
  }

  ghost function StaleRun(): seq<Event> {
    (Lost(0) + BothLook()) + ((Lost(1) + [Verdict(FIRST)]) + (ToBroadcast(2) + [NodeAccepts(2)]))
  }

  /**
   * The code does not keep nonce safety in every run: after this one, the transactions of jobs 1
   * and 2 are both accepted and unmined, at the same address with the same nonce.
   */
  lemma StaleClearReusesNonce()
    ensures Init(OneWorker()) && Possible(OneWorker(), StaleRun())
    ensures After(OneWorker(), StaleRun()).chain == [Account([0], {Tx(1, 1), Tx(2, 1)})]
  {
    Reopens();
    LosesThenClears(Reopened());
    IdleAgain(Reopened());
    var d := ClearedAgain(Withheld(Reopened(), 1));
    Sends(d, 2);
    assert Sent(d, 2).chain == [Account([0], {Tx(1, 1), Tx(2, 1)})] by {
      assert {Tx(1, 1)} + {Tx(2, 1)} == {Tx(1, 1), Tx(2, 1)};
    }
    RunsJoin(Reopened(), Lost(1) + [Verdict(FIRST)], ToBroadcast(2) + [NodeAccepts(2)]);
    RunsJoin(OneWorker(), Lost(0) + BothLook(), (Lost(1) + [Verdict(FIRST)]) + (ToBroadcast(2) + [NodeAccepts(2)]));
  }
}
