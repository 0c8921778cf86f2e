/**
 * No sweep overlooks a withheld address: those that were withheld when it began have all been judged when it ends, and
 * no job asks for its lease before its own sweep has ended.
 */
module SweepCoverage {
  import opened Options
  import opened PoolModel
  import opened JobProtocol
  import Service
  import ServiceSafety
  import ShortAddresses

  /** Sweep `k` still has the address at `at` to judge. */
  predicate StillToJudge(c: Core, k: SweepId, at: Place) { k in c.sweeps && at in c.sweeps[k].todo }

  /** The step is the verdict of sweep `k` on the address at `at`. */
  predicate Judges(c: Core, e: Event, k: SweepId, at: Place)
    requires Enabled(c, e)
  {
    e == Verdict(k) && c.sweeps[k].todo[0] == at
  }

  predicate IsWithheld(c: Core, at: Place) { at < |c.pool.workers| && c.pool.workers[at].pendingNonce.Some? }

  /** The snapshot is in the order of the pool. */
  lemma {:induction false} SnapshotAscends(ws: seq<Worker>, from: Place)
    requires from <= |ws|
    ensures Increasing(Quarantined(ws, from))
    decreases |ws| - from
  {
    if from < |ws| {
      SnapshotAscends(ws, from + 1);
      var rest := Quarantined(ws, from + 1);
      forall k | 0 <= k < |rest| ensures from < rest[k] { assert rest[k] in rest; }
    }
  }

  // ------------------------------------------------------------------ one step

  lemma ResumeKeepsSweeps(c: Core, e: Event)
    requires Resumes(e) && Enabled(c, e)
    ensures Resume(c, e).sweeps == c.sweeps
  {
  }

  /** What a step makes of a sweep under way. */
  lemma StepKeepsList(c: Core, e: Event, k: SweepId, at: Place)
    requires Enabled(c, e) && StillToJudge(c, k, at) && !Judges(c, e, k, at)
    requires e != SweepFails(k) && (k.OfJob? ==> e != Derived(k.job))
    ensures StillToJudge(Step(c, e), k, at)
  {
    if Resumes(e) {
      ResumeKeepsSweeps(c, e);
    } else if e == Verdict(k) {
      var todo := c.sweeps[k].todo;
      assert at in todo[1..] by { assert todo == [todo[0]] + todo[1..]; }
    } else {
      OtherStepKeepsList(c, e, k, at);
    }
  }

  lemma OtherStepKeepsList(c: Core, e: Event, k: SweepId, at: Place)
    requires Enabled(c, e) && !Resumes(e) && StillToJudge(c, k, at) && e != Verdict(k)
    requires e != SweepFails(k) && (k.OfJob? ==> e != Derived(k.job))
    ensures StillToJudge(Step(c, e), k, at)
  {
    hide Release, AcquireWithin, RejectWaiters, Timeout;
  }

  // ------------------------------------------------------------------ sweeps that requests open

  /** The verdict, somewhere in the run. */
  ghost predicate EverJudges(c: Core, es: seq<Event>, k: SweepId, at: Place)
    requires Possible(c, es)
    decreases |es|
  {
    es != [] && (Judges(c, es[0], k, at) || EverJudges(Step(c, es[0]), es[1..], k, at))
  }

  lemma {:induction false} ListIsJudged(c: Core, es: seq<Event>, r: nat, at: Place)
    requires Possible(c, es) && StillToJudge(c, OfRequest(r), at) && SweepFails(OfRequest(r)) !in es
    requires Enabled(After(c, es), SweepEnds(OfRequest(r)))
    ensures EverJudges(c, es, OfRequest(r), at)
    decreases |es|
  {
    hide Step, Enabled, Judges;
    if es == [] {
      NotDone(c, OfRequest(r), at);
    } else if !Judges(c, es[0], OfRequest(r), at) {
      assert es[0] in es && forall e :: e in es[1..] ==> e in es;
      StepKeepsList(c, es[0], OfRequest(r), at);
      ListIsJudged(Step(c, es[0]), es[1..], r, at);
    }
  }

  lemma NotDone(c: Core, k: SweepId, at: Place)
    requires StillToJudge(c, k, at)
    ensures !Enabled(c, SweepEnds(k))
  {
  }

  lemma OpeningLists(c: Core, e: Event, k: SweepId, at: Place)
    requires Enabled(c, e) && IsWithheld(c, at)
    requires (e.OpenSweep? && k == OfRequest(e.request)) || (e.Derived? && k == OfJob(e.job))
    ensures StillToJudge(Step(c, e), k, at)
  {
  }

  /** A request's sweep that does not fail is over only when every address withheld at its start has been judged. */
  lemma RequestSweepsAll(c: Core, es: seq<Event>, r: nat, at: Place)
    requires Possible(c, [OpenSweep(r)] + es) && IsWithheld(c, at) && SweepFails(OfRequest(r)) !in es
    requires Enabled(After(c, [OpenSweep(r)] + es), SweepEnds(OfRequest(r)))
    ensures EverJudges(c, [OpenSweep(r)] + es, OfRequest(r), at)
  {
    var all := [OpenSweep(r)] + es;
    assert all[0] == OpenSweep(r) && all[1..] == es;
    OpeningLists(c, OpenSweep(r), OfRequest(r), at);
    hide Step, Enabled, IsWithheld;
    ListIsJudged(Step(c, all[0]), es, r, at);
  }

  // ------------------------------------------------------------------ the sweep of a job

  /** Job `j` waits for its sweep, which has not judged the address yet. */
  predicate WaitsToJudge(c: Core, j: JobId, at: Place) {
    j in c.procs && c.procs[j].phase.Sweeping? && StillToJudge(c, OfJob(j), at)
  }

  lemma OwnerWaits(c: Core, e: Event, j: JobId, at: Place)
    requires Enabled(c, e) && !e.Start? && WaitsToJudge(c, j, at) && Service.OwnerOf(e) == Some(j)
    ensures e == SweepFails(OfJob(j))
  {
  }

  lemma FailedSweepEnds(c: Core, j: JobId)
    requires Enabled(c, SweepFails(OfJob(j))) && j in c.procs && c.procs[j].phase.Sweeping?
    ensures var d := Step(c, SweepFails(OfJob(j))); j in d.procs && Over(d.procs[j].phase)
  {
    hide Close;
    ServiceSafety.CloseMoves(c.(sweeps := c.sweeps - {OfJob(j)}), j, Throwing(Unanticipated));
  }

  /** A step in which the sweep of the job does not judge the address leaves it to be judged, or ends the job. */
  lemma StepWaits(c: Core, e: Event, j: JobId, at: Place)
    requires Enabled(c, e) && WaitsToJudge(c, j, at) && !Judges(c, e, OfJob(j), at)
    ensures var d := Step(c, e); WaitsToJudge(d, j, at) || (j in d.procs && Over(d.procs[j].phase))
  {
    hide Step, Enabled, StillToJudge, Judges, Over;
    if e == SweepFails(OfJob(j)) {
      FailedSweepEnds(c, j);
    } else {
      OthersStep(c, e, j, at);
      StepKeepsList(c, e, OfJob(j), at);
    }
  }

  lemma OthersStep(c: Core, e: Event, j: JobId, at: Place)
    requires Enabled(c, e) && WaitsToJudge(c, j, at) && e != SweepFails(OfJob(j))
    ensures j in Step(c, e).procs && Step(c, e).procs[j].phase.Sweeping?
    ensures e != Derived(j)
  {
    NotDerivedAgain(c, j);
    hide Step, Enabled, StillToJudge;
    if e.Start? { StartKeepsPhase(c, e.job, j); }
    else if Service.OwnerOf(e) == Some(j) { OwnerWaits(c, e, j, at); }
    else { ServiceSafety.OthersPhase(c, e, j); }
  }

  lemma NotDerivedAgain(c: Core, j: JobId)
    requires j in c.procs && c.procs[j].phase.Sweeping?
    ensures !Enabled(c, Derived(j))
  {
  }

  lemma StartKeepsPhase(c: Core, k: JobId, j: JobId)
    requires Enabled(c, Start(k)) && j in c.procs
    ensures j in Step(c, Start(k)).procs && Step(c, Start(k)).procs[j].phase == c.procs[j].phase
  {
  }

  lemma NotAskingYet(c: Core, j: JobId, at: Place)
    requires WaitsToJudge(c, j, at)
    ensures !Enabled(c, AsksLease(j))
  {
  }

  lemma {:induction false} WaitingIsJudged(c: Core, es: seq<Event>, j: JobId, at: Place)
    requires Possible(c, es) && WaitsToJudge(c, j, at) && Enabled(After(c, es), AsksLease(j))
    ensures EverJudges(c, es, OfJob(j), at)
    decreases |es|
  {
    hide Step, Judges, WaitsToJudge;
    if es == [] {
      NotAskingYet(c, j, at);
    } else if !Judges(c, es[0], OfJob(j), at) {
      StepWaits(c, es[0], j, at);
      var d := Step(c, es[0]);
      if WaitsToJudge(d, j, at) {
        WaitingIsJudged(d, es[1..], j, at);
      } else {
        ShortAddresses.NeverAsksAgain(d, es[1..], j);
      }
    }
  }

  /**
   * In every run in which a job goes from its addresses to its request for a lease, every address withheld at the
   * start of that stretch was judged on the way by the job's own sweep, whatever the other jobs did meanwhile.
   */
  lemma NoSweepSkipsWithheld(c: Core, es: seq<Event>, j: JobId, at: Place)
    requires Possible(c, [Derived(j)] + es) && IsWithheld(c, at)
    requires Enabled(After(c, [Derived(j)] + es), AsksLease(j))
    ensures EverJudges(c, [Derived(j)] + es, OfJob(j), at)
  {
    var all := [Derived(j)] + es;
    assert all[0] == Derived(j) && all[1..] == es;
    OpeningLists(c, Derived(j), OfJob(j), at);
    DerivedWaits(c, j);
    hide Step, Enabled, IsWithheld, StillToJudge;
    WaitingIsJudged(Step(c, all[0]), es, j, at);
  }

  lemma DerivedWaits(c: Core, j: JobId)
    requires Enabled(c, Derived(j))
    ensures j in Step(c, Derived(j)).procs && Step(c, Derived(j)).procs[j].phase.Sweeping?
  {
  }
}
