/** The bound on live jobs is tight: a run that fills both ceilings, for every pair of positive ones. */
module StoreCeilings {
  import opened StoreModel
  import opened StoreSafety

  /** The updates that take a new record to `confirmed`. */
  const CLIMB := [Lease, Request, Await, Sign, Verify, Move.Broadcast, Confirm]

  /** What the record shows before the `k`-th of them. */
  function FaceAt(k: nat): Face
    requires k <= 7
  {
    match k
    case 0 => Face(Pending, AcceptedAt)
    case 1 => Face(Pending, LeaseAcquiredAt)
    case 2 => Face(SignSent, SignSentAt)
    case 3 => Face(AwaitingSignature, SignSentAt)
    case 4 => Face(AwaitingSignature, SignatureAt)
    case 5 => Face(Verified, SignatureAt)
    case 6 => Face(State.Broadcast, BroadcastAt)
    case _ => Face(Confirmed, ConfirmedAt)
  }

  /** No record is finished; so many are active and so many await their respond; ids from `next` on are unused. */
  ghost predicate Populated(st: Store, active: nat, awaiting: nat, next: JobId) {
    && WellFormed(st) && RecordsOk(st, 0) && FinishedIds(st) == {}
    && |ActiveIds(st)| == active && |AwaitingIds(st)| == awaiting
    && forall id :: id in st.jobs ==> id < next
  }

  lemma StillUnfinished(st: Store, next: Store, id: JobId, bound: JobId)
    requires OnlyTouches(st, next, id) && FinishedIds(st) == {}
      && (id in next.jobs ==> !IsFinished(next.jobs[id].state))
    requires id < bound && forall k :: k in st.jobs ==> k < bound
    ensures FinishedIds(next) == {} && forall k :: k in next.jobs ==> k < bound
  {
    forall k | k in next.jobs ensures !IsFinished(next.jobs[k].state) {
      if k != id { assert k !in FinishedIds(st) && next.jobs[k] == st.jobs[k]; }
    }
  }

  lemma AdmitOne(l: Limits, st: Store, active: nat, awaiting: nat, id: JobId)
    requires Populated(st, active, awaiting, id) && active < l.maxActive && awaiting < l.maxJobs
    ensures var op := Admit(id, SelfTransfer, 0); var next := Applied(st, l, op);
      && Legal(st, l, 0, op) && Populated(next, active + 1, awaiting, id + 1)
      && id in next.jobs && FaceOf(next.jobs[id]) == FaceAt(0)
  {
    hide WellFormed, RecordsOk, OnlyTouches, ActiveIds, AwaitingIds, FinishedIds, Create;
    OpKeepsRecords(st, l, 0, Admit(id, SelfTransfer, 0));
    CreateTouches(st, l.retained, id, SelfTransfer, 0);
    CreateCounts(st, l.retained, id, SelfTransfer, 0);
    NotYetActive(st, id);
    StillUnfinished(st, Create(st, l.retained, id, SelfTransfer, 0), id, id + 1);
    assert Top(NewJob(SelfTransfer, 0).timings) == AcceptedAt;
  }

  lemma NotYetActive(st: Store, id: JobId)
    requires id !in st.jobs
    ensures |ActiveIds(st) + {id}| == |ActiveIds(st)| + 1
  {
    assert id !in ActiveIds(st);
  }

  lemma ActiveSets(st: Store, id: JobId)
    requires id in st.jobs && IsActive(st.jobs[id].state)
    ensures ActiveIds(st) + {id} == ActiveIds(st) && |ActiveIds(st) - {id}| == |ActiveIds(st)| - 1
    ensures AwaitingIds(st) - {id} == AwaitingIds(st) && |AwaitingIds(st) + {id}| == |AwaitingIds(st)| + 1
  {
    assert id in ActiveIds(st) && id !in AwaitingIds(st);
  }

  lemma ClimbIsLegal(k: nat)
    requires k < 7
    ensures MayMove(FaceAt(k), CLIMB[k]) && Moved(FaceAt(k), CLIMB[k]) == FaceAt(k + 1)
    ensures IsActive(FaceAt(k).state) && !IsFinished(FaceAt(k + 1).state)
    ensures if k < 6 then IsActive(FaceAt(k + 1).state) else FaceAt(k + 1).state.Confirmed?
  {
  }

  lemma RecordAt(st: Store, id: JobId)
    requires RecordsOk(st, 0) && id in st.jobs
    ensures JobOk(st.jobs[id], 0)
  {
  }

  /** One update on the way up: the job stays active until the last one makes it wait. */
  lemma ClimbOne(l: Limits, st: Store, id: JobId, k: nat, active: nat, awaiting: nat, bound: JobId)
    requires k < 7 && Populated(st, active, awaiting, bound) && id in st.jobs && FaceOf(st.jobs[id]) == FaceAt(k)
    ensures var op := Act(id, CLIMB[k], 0); var next := Applied(st, l, op);
      && Legal(st, l, 0, op) && id in next.jobs && FaceOf(next.jobs[id]) == FaceAt(k + 1)
      && active > 0 && (if k < 6 then Populated(next, active, awaiting, bound)
        else Populated(next, active - 1, awaiting + 1, bound))
  {
    hide WellFormed, RecordsOk, OnlyTouches, ActiveIds, AwaitingIds, FinishedIds, Update, JobOk, FaceAt, MayMove,
      Moved, Patched, PatchOf;
    var m := CLIMB[k];
    ClimbIsLegal(k);
    RecordAt(st, id);
    MoveKeepsJob(st.jobs[id], m, 0, 0);
    OpKeepsRecords(st, l, 0, Act(id, m, 0));
    UpdateTouches(st, l.retained, id, PatchOf(m, 0));
    UpdateCounts(st, l.retained, id, PatchOf(m, 0));
    ActiveSets(st, id);
    StillUnfinished(st, Update(st, l.retained, id, PatchOf(m, 0)), id, bound);
  }

  function ClimbFrom(id: JobId, k: nat): seq<Op>
    requires k <= 7
    decreases 7 - k
  {
    if k == 7 then [] else [Act(id, CLIMB[k], 0)] + ClimbFrom(id, k + 1)
  }

  lemma {:induction false} Climbs(l: Limits, st: Store, id: JobId, k: nat, active: nat, awaiting: nat, bound: JobId)
    requires k < 7 && Populated(st, active, awaiting, bound) && id in st.jobs && FaceOf(st.jobs[id]) == FaceAt(k)
    ensures LegalRun(st, l, 0, ClimbFrom(id, k))
    ensures active > 0 && Populated(Final(st, l, ClimbFrom(id, k)), active - 1, awaiting + 1, bound)
    decreases 7 - k
  {
    hide Populated, FaceOf, FaceAt, Legal, Applied;
    ClimbOne(l, st, id, k, active, awaiting, bound);
    var op := Act(id, CLIMB[k], 0);
    var next := Applied(st, l, op);
    assert ClimbFrom(id, k)[0] == op && ClimbFrom(id, k)[1..] == ClimbFrom(id, k + 1);
    if k < 6 {
      Climbs(l, next, id, k + 1, active, awaiting, bound);
    } else {
      assert ClimbFrom(id, 7) == [] && Final(next, l, []) == next;
    }
  }

  lemma {:induction false} RunsJoin(st: Store, l: Limits, a: seq<Op>, b: seq<Op>)
    requires LegalRun(st, l, 0, a) && (forall i :: 0 <= i < |a| ==> a[i].now == 0) && LegalRun(Final(st, l, a), l, 0, b)
    ensures LegalRun(st, l, 0, a + b) && Final(st, l, a + b) == Final(Final(st, l, a), l, b)
    decreases |a|
  {
    hide Legal, Applied;
    if a == [] {
      assert a + b == b;
    } else {
      assert (a + b)[0] == a[0] && (a + b)[1..] == a[1..] + b;
      RunsJoin(Applied(st, l, a[0]), l, a[1..], b);
    }
  }

  lemma {:induction false} ClimbIsAtZero(id: JobId, k: nat)
    requires k <= 7
    ensures forall i :: 0 <= i < |ClimbFrom(id, k)| ==> ClimbFrom(id, k)[i].now == 0
    decreases 7 - k
  {
    if k < 7 { ClimbIsAtZero(id, k + 1); }
  }

  /** Admissions one after the other until the active ceiling is reached. */
  lemma {:induction false} FillActive(l: Limits, st: Store, active: nat, awaiting: nat,
      next: JobId) returns (ops: seq<Op>)
    requires Populated(st, active, awaiting, next) && active <= l.maxActive && awaiting < l.maxJobs
    ensures LegalRun(st, l, 0, ops)
    ensures |ActiveIds(Final(st, l, ops))| == l.maxActive && |AwaitingIds(Final(st, l, ops))| == awaiting
    decreases l.maxActive - active
  {
    if active == l.maxActive {
      ops := [];
    } else {
      AdmitOne(l, st, active, awaiting, next);
      hide Populated, Legal, Applied, ActiveIds, AwaitingIds;
      var op := Admit(next, SelfTransfer, 0);
      var rest := FillActive(l, Applied(st, l, op), active + 1, awaiting, next + 1);
      ops := [op] + rest;
      assert ops[1..] == rest;
    }
  }

  /** Jobs admitted and confirmed one at a time until one place is left among the waiting, and then `FillActive`. */
  lemma {:induction false} FillBoth(l: Limits, st: Store, awaiting: nat, next: JobId) returns (ops: seq<Op>)
    requires Populated(st, 0, awaiting, next) && awaiting < l.maxJobs && 0 < l.maxActive
    ensures LegalRun(st, l, 0, ops)
    ensures |ActiveIds(Final(st, l, ops))| == l.maxActive && |AwaitingIds(Final(st, l, ops))| == l.maxJobs - 1
    decreases l.maxJobs - awaiting
  {
    if awaiting == l.maxJobs - 1 {
      ops := FillActive(l, st, 0, awaiting, next);
    } else {
      AdmitOne(l, st, 0, awaiting, next);
      hide Populated, Legal, Applied, ActiveIds, AwaitingIds, FaceOf, FaceAt;
      var op := Admit(next, SelfTransfer, 0);
      var mid := Applied(st, l, op);
      Climbs(l, mid, next, 0, 1, awaiting, next + 1);
      ClimbIsAtZero(next, 0);
      var climb := ClimbFrom(next, 0);
      var rest := FillBoth(l, Final(mid, l, climb), awaiting + 1, next + 1);
      RunsJoin(mid, l, climb, rest);
      ops := [op] + (climb + rest);
      assert ops[1..] == climb + rest;
    }
  }

  /** The live bound is tight: for every pair of positive ceilings some run reaches it. */
  lemma LiveBoundIsReached(l: Limits)
    requires l.maxJobs > 0 && l.maxActive > 0
    ensures exists ops :: LegalRun(EMPTY, l, 0, ops) && |LiveIds(Final(EMPTY, l, ops))| == LiveBound(l)
  {
    assert Populated(EMPTY, 0, 0, 0) by { assert ActiveIds(EMPTY) == {} && AwaitingIds(EMPTY) == {}; }
    hide Populated, Applied, Legal;
    var ops := FillBoth(l, EMPTY, 0, 0);
    CountsAddUp(Final(EMPTY, l, ops));
  }
}
