/**
 * The nonces that jobs offer for signing. A signature that does not come in time leaves the nonce
 * unused, so a later request at the same address may carry it again: exactly when no transaction
 * of that address was mined in between.
 */
module RequestNonces {
  import opened Options
  import opened PoolModel
  import opened JobProtocol
  import opened ChainSafety
  import opened QuarantineSafety
  import StaleClear

  // ------------------------------------------------------------------ exactly when two requests carry one nonce

  lemma ResumeMinesNothing(c: Core, e: Event)
    requires Resumes(e) && Enabled(c, e)
    ensures |Resume(c, e).chain| == |c.chain|
    ensures forall i :: 0 <= i < |c.chain| ==> Resume(c, e).chain[i].ledger == c.chain[i].ledger
  {
  }

  /** The transaction count of an address moves in the steps that mine there, by one, and in no others. */
  lemma OnlyMiningMovesLatest(c: Core, e: Event, at: Place)
    requires Enabled(c, e) && at < |c.chain|
    ensures |Step(c, e).chain| == |c.chain|
    ensures Latest(Step(c, e).chain[at]) == Latest(c.chain[at]) + (if e.Mine? && e.at == at then 1 else 0)
  {
    if Resumes(e) { ResumeMinesNothing(c, e); }
  }

  function MinedAt(es: seq<Event>, at: Place): nat {
    if es == [] then 0 else (if es[0].Mine? && es[0].at == at then 1 else 0) + MinedAt(es[1..], at)
  }

  lemma {:induction false} LatestCountsMined(c: Core, es: seq<Event>, at: Place)
    requires Possible(c, es) && at < |c.chain|
    ensures |After(c, es).chain| == |c.chain|
    ensures Latest(After(c, es).chain[at]) == Latest(c.chain[at]) + MinedAt(es, at)
    decreases |es|
  {
    hide Step, Enabled, Latest;
    if es != [] {
      OnlyMiningMovesLatest(c, es[0], at);
      LatestCountsMined(Step(c, es[0]), es[1..], at);
    }
  }

  lemma {:induction false} NoneMined(es: seq<Event>, at: Place)
    ensures MinedAt(es, at) == 0 <==> forall e :: e in es && e.Mine? ==> e.at != at
  {
    if es != [] {
      NoneMined(es[1..], at);
      assert forall e :: e in es <==> e == es[0] || e in es[1..];
    }
  }

  lemma {:induction false} TimelyThroughout(c: Core, es: seq<Event>, i: nat)
    requires Inv(c) && Possible(c, es) && AllTimely(c, es) && i <= |es|
    ensures Possible(c, es[..i]) && Inv(After(c, es[..i]))
    decreases i
  {
    hide Inv, Step, Enabled, Timely;
    RunsSplit(c, es, i);
    if i > 0 {
      assert es[..i][0] == es[0] && es[..i][1..] == es[1..][..i - 1];
      StepKeepsInv(c, es[0]);
      TimelyThroughout(Step(c, es[0]), es[1..], i - 1);
    }
  }

  /** A request carries the count its address has at that moment. */
  lemma RequestsLatest(c: Core, j: JobId)
    requires Inv(c) && Enabled(c, RequestSent(j))
    ensures LeaseOf(c, j) < |c.chain| && PhaseOf(c, j).nonce == Latest(c.chain[LeaseOf(c, j)])
  {
    OwnAccount(c, j);
  }

  /**
   * In every timely run: of two requests at one address the second carries the nonce of the first plus the number
   * of transactions of that address mined in between. So they carry the same nonce if and only if none was.
   */
  lemma NonceRepeatsExactlyWhenNothingMined(c: Core, es: seq<Event>, p: nat, q: nat, j: JobId, k: JobId)
    requires Init(c) && Possible(c, es) && AllTimely(c, es) && p <= q < |es|
    requires es[p] == RequestSent(j) && es[q] == RequestSent(k)
    ensures Possible(c, es[..p]) && Possible(c, es[..q])
    ensures var a, b := After(c, es[..p]), After(c, es[..q]);
      && PhaseOf(a, j).SendingRequest? && PhaseOf(b, k).SendingRequest?
      && (LeaseOf(a, j) == LeaseOf(b, k) ==>
            && PhaseOf(b, k).nonce == PhaseOf(a, j).nonce + MinedAt(es[p..q], LeaseOf(a, j))
            && (PhaseOf(a, j).nonce == PhaseOf(b, k).nonce <==>
                  forall i :: p < i < q && es[i].Mine? ==> es[i].at != LeaseOf(a, j)))
  {
    hide Inv, Init, Step, Enabled, Timely, AllTimely, Latest;
    InitInv(c);
    TimelyThroughout(c, es, p);
    TimelyThroughout(c, es, q);
    EnabledAt(c, es, p);
    EnabledAt(c, es, q);
    SegmentOf(c, es, p, q);
    var a, b := After(c, es[..p]), After(c, es[..q]);
    AtRequest(a, j);
    AtRequest(b, k);
    RequestsLatest(a, j);
    RequestsLatest(b, k);
    var at := LeaseOf(a, j);
    LatestCountsMined(a, es[p..q], at);
    NoneMined(es[p..q], at);
    SomeMined(es, p, q, at);
  }

  lemma AtRequest(c: Core, j: JobId)
    requires Enabled(c, RequestSent(j))
    ensures PhaseOf(c, j).SendingRequest?
  {
  }

  lemma EnabledAt(c: Core, es: seq<Event>, i: nat)
    requires Possible(c, es) && i < |es|
    ensures Possible(c, es[..i]) && Enabled(After(c, es[..i]), es[i])
  {
    hide Step, Enabled;
    RunsSplit(c, es, i);
    assert es[i..][0] == es[i];
  }

  lemma SegmentOf(c: Core, es: seq<Event>, p: nat, q: nat)
    requires Possible(c, es) && p <= q <= |es|
    ensures Possible(c, es[..p]) && Possible(c, es[..q]) && Possible(After(c, es[..p]), es[p..q])
    ensures After(After(c, es[..p]), es[p..q]) == After(c, es[..q])
  {
    hide Step, Enabled;
    RunsSplit(c, es, q);
    RunsSplit(c, es[..q], p);
    assert es[..q][..p] == es[..p] && es[..q][p..] == es[p..q];
  }

  lemma SomeMined(es: seq<Event>, p: nat, q: nat, at: Place)
    requires p <= q <= |es| && (p < q ==> !es[p].Mine?)
    ensures (forall e :: e in es[p..q] && e.Mine? ==> e.at != at)
      <==> (forall i :: p < i < q && es[i].Mine? ==> es[i].at != at)
  {
    forall i | p < i < q ensures es[i] in es[p..q] { assert es[p..q][i - p] == es[i]; }
    forall e | e in es[p..q] ensures exists i :: p <= i < q && es[i] == e {
      var m :| 0 <= m < q - p && es[p..q][m] == e;
      assert es[p + m] == e;
    }
  }

  // ------------------------------------------------------------------ a run in which they do

  /** `c` after job `j` gave up on its signature: the address is free again and its count has not moved. */
  ghost function GaveUp(c: Core, j: JobId): Core
    requires StaleClear.Idle(c)
  {
    var w := c.pool.workers[0];
    StaleClear.Leasing(c, j, AwaitingSignature(0)).(
      pool := Lease(c.pool.(next := c.pool.next + 1), 0, c.pool.next).(
        workers := [w.(busy := false, leases := w.leases + 1, lessee := None)]),
      procs := c.procs[j := Proc(Ended, Some(c.pool.next), Some(0), true, false)])
  }

  /** A job from its start to just before its Solana request. */
  ghost function ToRequest(j: JobId): seq<Event> { StaleClear.Entry(j) + StaleClear.Advances(j)[..4] }

  lemma ReachesRequest(c: Core, j: JobId)
    requires StaleClear.Idle(c) && j !in c.procs && OfJob(j) !in c.sweeps
    ensures Possible(c, ToRequest(j))
    ensures After(c, ToRequest(j)) == StaleClear.Leasing(c, j, SendingRequest(Latest(c.chain[0])))
  {
    StaleClear.Enters(c, j);
    StaleClear.AdvancesTo(c, j, 4);
    RunsJoin(c, StaleClear.Entry(j), StaleClear.Advances(j)[..4]);
  }

  lemma Requests(c: Core, j: JobId)
    requires StaleClear.Idle(c)
    ensures var n := Latest(c.chain[0]); var d := StaleClear.Leasing(c, j, SendingRequest(n));
      && Enabled(d, RequestSent(j))
      && Step(d, RequestSent(j)) == StaleClear.Leasing(c, j, AwaitingSignature(n))
  {
    StaleClear.Advance(c, j, 4);
  }

  lemma GivesUpOnSignature(c: Core, j: JobId)
    requires StaleClear.Idle(c)
    ensures var d := StaleClear.Leasing(c, j, AwaitingSignature(Latest(c.chain[0])));
      Enabled(d, SignatureTimesOut(j)) && Step(d, SignatureTimesOut(j)) == GaveUp(c, j)
  {
    var d := StaleClear.Leasing(c, j, AwaitingSignature(Latest(c.chain[0])));
    var p := Free(d.pool, 0);
    assert p.workers == GaveUp(c, j).pool.workers;
    assert Release(d.pool, 0) == p;
    assert Close(d, j, Ended).procs == GaveUp(c, j).procs;
  }

  ghost function GivesUp(j: JobId): seq<Event> { [RequestSent(j), SignatureTimesOut(j)] }

  lemma RequestsAndGivesUp(c: Core, j: JobId)
    requires StaleClear.Idle(c)
    ensures var d := StaleClear.Leasing(c, j, SendingRequest(Latest(c.chain[0])));
      Possible(d, GivesUp(j)) && After(d, GivesUp(j)) == GaveUp(c, j)
  {
    hide Step, Enabled, StaleClear.Leasing, GaveUp;
    Requests(c, j);
    GivesUpOnSignature(c, j);
    var d := StaleClear.Leasing(c, j, SendingRequest(Latest(c.chain[0])));
    StaleClear.Trace([d, Step(d, RequestSent(j)), GaveUp(c, j)], GivesUp(j));
  }

  lemma IdleAgain(c: Core)
    requires StaleClear.Idle(c)
    ensures StaleClear.Idle(GaveUp(c, 0)) && GaveUp(c, 0).procs.Keys == c.procs.Keys + {0}
    ensures GaveUp(c, 0).sweeps == c.sweeps && GaveUp(c, 0).chain == c.chain
  {
  }

  lemma ReadyToRequest(c: Core, j: JobId)
    requires StaleClear.Idle(c)
    ensures var d := StaleClear.Leasing(c, j, SendingRequest(Latest(c.chain[0])));
      && Enabled(d, RequestSent(j)) && LeaseOf(d, j) == 0 && PhaseOf(d, j) == SendingRequest(Latest(c.chain[0]))
      && Possible(d, [RequestSent(j)])
  {
    var d := StaleClear.Leasing(c, j, SendingRequest(Latest(c.chain[0])));
    StaleClear.Trace([d, Step(d, RequestSent(j))], [RequestSent(j)]);
  }

  /** Job 0 requests and gives up, and then job 1 comes to its own request. */
  ghost function BeforeSecond(): seq<Event> { (ToRequest(0) + GivesUp(0)) + ToRequest(1) }

  /**
   * From a fresh service with one address, jobs 0 and 1 both request a signature for the same nonce of it: the
   * states before the two requests, in one run.
   */
  lemma SignatureTimeoutRepeatsNonce()
    ensures var c := StaleClear.OneWorker();
      && Init(c) && Possible(c, BeforeSecond() + [RequestSent(1)])
      && BeforeSecond() == ToRequest(0) + [RequestSent(0), SignatureTimesOut(0)] + ToRequest(1)
      && Possible(c, ToRequest(0)) && Possible(c, BeforeSecond())
      && var a, b := After(c, ToRequest(0)), After(c, BeforeSecond());
         && Enabled(a, RequestSent(0)) && PhaseOf(a, 0) == SendingRequest(0) && LeaseOf(a, 0) == 0
         && Enabled(b, RequestSent(1)) && PhaseOf(b, 1) == SendingRequest(0) && LeaseOf(b, 1) == 0
  {
    var c := StaleClear.OneWorker();
    assert StaleClear.Idle(c) && Init(c);
    IdleAgain(c);
    var d := GaveUp(c, 0);
    hide Step, Enabled, StaleClear.Leasing, GaveUp, ToRequest, GivesUp, StaleClear.Idle, Init;
    ReachesRequest(c, 0);
    ReadyToRequest(c, 0);
    RequestsAndGivesUp(c, 0);
    RunsJoin(c, ToRequest(0), GivesUp(0));
    ReachesRequest(d, 1);
    ReadyToRequest(d, 1);
    RunsJoin(c, ToRequest(0) + GivesUp(0), ToRequest(1));
    RunsJoin(c, BeforeSecond(), [RequestSent(1)]);
    GivesUpIs(0);
  }

  lemma GivesUpIs(j: JobId)
    ensures GivesUp(j) == [RequestSent(j), SignatureTimesOut(j)]
  {
  }
}
