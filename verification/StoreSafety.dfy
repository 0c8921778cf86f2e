/**
 * What every run of admissions and job updates keeps: the lifecycle of each record, the two
 * capacity ceilings and the bounds that follow from them, and the bound on retained records.
 */
module StoreSafety {
  import opened Options
  import opened Sequences
  import opened StoreModel

  // ------------------------------------------------------------------ pruning and the counts

  lemma {:induction false} WithoutStaysDistinct(order: seq<JobId>, gone: set<JobId>)
    requires Distinct(order)
    ensures Distinct(Without(order, gone))
    ensures gone == {} ==> Without(order, gone) == order
  {
    if order != [] {
      assert forall k :: 0 <= k < |order[1..]| ==> order[1..][k] == order[k + 1];
      WithoutStaysDistinct(order[1..], gone);
      assert order[0] !in order[1..];
      assert order[0] !in Without(order[1..], gone);
    }
  }

  lemma SubsetCount<T>(a: set<T>, b: set<T>)
    requires a <= b
    ensures |b - a| == |b| - |a|
  {
    assert b == a + (b - a);
  }

  lemma CutCount(s: seq<JobId>, n: nat)
    requires Distinct(s) && n <= |s|
    ensures Elements(s[..n]) <= Elements(s) && |Elements(s[..n])| == n
  {
    ElementsCount(s[..n]);
  }

  lemma CutLeaves(s: seq<JobId>, all: set<JobId>, retained: nat)
    requires Distinct(s) && Elements(s) == all && |s| == |all| && |s| > retained
    ensures Elements(s[..|s| - retained]) <= all
    ensures |all - Elements(s[..|s| - retained])| <= retained
  {
    hide Elements, Distinct;
    CutCount(s, |s| - retained);
    SubsetCount(Elements(s[..|s| - retained]), all);
  }

  lemma DroppedCount(st: Store, retained: nat)
    requires WellFormed(st)
    ensures Dropped(st, retained) <= FinishedIds(st)
    ensures |FinishedIds(st) - Dropped(st, retained)| <= retained
    ensures |FinishedIds(st)| <= retained ==> Dropped(st, retained) == {}
  {
    hide WellFormed, FinishedIds, SortByFinish, Finished, InOrder, Elements, Distinct;
    SortedFinished(st);
    var sorted := SortByFinish(st, Finished(st));
    if |sorted| > retained { CutLeaves(sorted, FinishedIds(st), retained); }
  }

  /** The store without some of its finished records. */
  lemma CutKeeps(st: Store, gone: set<JobId>)
    requires WellFormed(st) && gone <= FinishedIds(st)
    ensures var cut := Store(Without(st.order, gone), st.jobs - gone);
      && WellFormed(cut) && ActiveIds(cut) == ActiveIds(st) && AwaitingIds(cut) == AwaitingIds(st)
      && FinishedIds(cut) == FinishedIds(st) - gone
      && (gone == {} ==> cut == st)
  {
    WithoutStaysDistinct(st.order, gone);
    assert gone == {} ==> st.jobs - gone == st.jobs;
  }

  /** Pruning touches finished records only, and leaves at most `retained` of them. */
  lemma PruneKeeps(st: Store, retained: nat)
    requires WellFormed(st)
    ensures WellFormed(Prune(st, retained))
    ensures ActiveIds(Prune(st, retained)) == ActiveIds(st) && AwaitingIds(Prune(st, retained)) == AwaitingIds(st)
    ensures FinishedIds(Prune(st, retained)) == FinishedIds(st) - Dropped(st, retained)
    ensures |FinishedIds(Prune(st, retained))| <= retained
    ensures forall id :: id in Prune(st, retained).jobs ==> id in st.jobs && Prune(st, retained).jobs[id] == st.jobs[id]
    ensures |FinishedIds(st)| <= retained ==> Prune(st, retained) == st
  {
    DroppedCount(st, retained);
    CutKeeps(st, Dropped(st, retained));
  }

  /** Eviction order: nothing that was dropped finished later than anything that was kept. */
  lemma DroppedFinishedFirst(st: Store, retained: nat, x: JobId, y: JobId)
    requires WellFormed(st) && x in Dropped(st, retained) && y in FinishedIds(Prune(st, retained))
    ensures KeyOf(st, x) <= KeyOf(st, y)
    ensures KeyOf(st, x) == KeyOf(st, y) ==> IndexIn(st.order, x) < IndexIn(st.order, y)
  {
    var sorted := SortByFinish(st, Finished(st));
    PruneKeeps(st, retained);
    SortedFinished(st);
    var i :| 0 <= i < |sorted| - retained && sorted[i] == x;
    assert y in Elements(sorted);
    var j :| 0 <= j < |sorted| && sorted[j] == y;
    InPrefix(sorted, |sorted| - retained, j);
    assert Before(st, sorted[i], sorted[j]);
  }

  lemma Disjoint<T>(a: set<T>, b: set<T>)
    requires a !! b
    ensures |a + b| == |a| + |b|
  {
  }

  /** Every record is active, awaiting its respond, or finished. */
  lemma CountsAddUp(st: Store)
    ensures |st.jobs| == |ActiveIds(st)| + |AwaitingIds(st)| + |FinishedIds(st)|
    ensures |LiveIds(st)| == |ActiveIds(st)| + |AwaitingIds(st)|
  {
    Disjoint(ActiveIds(st), AwaitingIds(st));
    Disjoint(LiveIds(st), FinishedIds(st));
    assert st.jobs.Keys == LiveIds(st) + FinishedIds(st);
  }

  // ------------------------------------------------------------------ the lifecycle of a record

  function Rank(s: Stamp): nat {
    match s
    case AcceptedAt => 0
    case LeaseAcquiredAt => 1
    case SignSentAt => 2
    case SignatureAt => 3
    case BroadcastAt => 4
    case ConfirmedAt => 5
    case RespondedAt => 6
    case FinishedAt => 7
  }

  /** The last stage that has a timestamp. */
  function Top(t: Timings): Stamp {
    if RespondedAt in t then RespondedAt else if ConfirmedAt in t then ConfirmedAt
    else if BroadcastAt in t then BroadcastAt else if SignatureAt in t then SignatureAt
    else if SignSentAt in t then SignSentAt else if LeaseAcquiredAt in t then LeaseAcquiredAt else AcceptedAt
  }

  /**
   * The stages that have a timestamp are the first ones, in order, and the times do not
   * decrease; the finishing time, if there is one, comes after them all.
   */
  ghost predicate Ordered(t: Timings) {
    && AcceptedAt in t
    && (forall x, y :: y in t && y != FinishedAt && Rank(x) < Rank(y) ==> x in t && t[x] <= t[y])
    && (FinishedAt in t ==> forall x :: x in t ==> t[x] <= t[FinishedAt])
  }

  /** A job in state `s` may have got as far as `top`. */
  predicate Reached(s: State, top: Stamp) {
    match s
    case Pending => top.AcceptedAt? || top.LeaseAcquiredAt?
    case SignSent => top.SignSentAt?
    case AwaitingSignature => top.SignSentAt? || top.SignatureAt?
    case Verified => top.SignatureAt?
    case Broadcast => top.BroadcastAt?
    case Confirmed => top.ConfirmedAt? || top.RespondedAt?
    case Responded => top.RespondedAt?
    case Failed => true
  }

  ghost predicate JobOk(j: Job, clock: int) {
    && Ordered(j.timings)
    && (forall s :: s in j.timings ==> j.timings[s] <= clock)
    && Reached(j.state, Top(j.timings))
    && (FinishedAt in j.timings <==> IsFinished(j.state))
    && (j.failure.Some? <==> j.state.Failed?)
  }

  /** The updates a run of a job makes to its record. */
  datatype Move = Lease | Request | Await | Sign | Verify | Broadcast | Confirm | Respond | Finish
    | Fail(reason: Reason)

  function PatchOf(m: Move, now: int): Patch {
    match m
    case Lease => Patch(None, None, map[LeaseAcquiredAt := now])
    case Request => Patch(Some(SignSent), None, map[SignSentAt := now])
    case Await => Patch(Some(AwaitingSignature), None, map[])
    case Sign => Patch(None, None, map[SignatureAt := now])
    case Verify => Patch(Some(Verified), None, map[])
    case Broadcast => Patch(Some(State.Broadcast), None, map[BroadcastAt := now])
    case Confirm => Patch(Some(Confirmed), None, map[ConfirmedAt := now])
    case Respond => Patch(None, None, map[RespondedAt := now])
    case Finish => Patch(Some(Responded), None, map[FinishedAt := now])
    case Fail(reason) => Failure(reason, now)
  }

  /** What the lifecycle looks at: the state and how far the timestamps got. */
  datatype Face = Face(state: State, top: Stamp)

  function FaceOf(j: Job): Face { Face(j.state, Top(j.timings)) }

  predicate MayMove(f: Face, m: Move) {
    match m
    case Lease => f.state.Pending? && f.top.AcceptedAt?
    case Request => f.state.Pending? && f.top.LeaseAcquiredAt?
    case Await => f.state.SignSent?
    case Sign => f.state.AwaitingSignature? && f.top.SignSentAt?
    case Verify => f.state.AwaitingSignature? && f.top.SignatureAt?
    case Broadcast => f.state.Verified?
    case Confirm => f.state.Broadcast?
    case Respond => f.state.Confirmed? && f.top.ConfirmedAt?
    case Finish => f.state.Confirmed? && f.top.RespondedAt?
    case Fail(_) => !IsFinished(f.state)
  }

  function Moved(f: Face, m: Move): Face {
    Face(if PatchOf(m, 0).state.Some? then PatchOf(m, 0).state.value else f.state,
         if StampOf(m).Some? && StampOf(m) != Some(FinishedAt) then StampOf(m).value else f.top)
  }

  predicate CanMove(j: Job, m: Move) { MayMove(FaceOf(j), m) }

  function Progress(s: State): nat {
    match s
    case Pending => 0
    case SignSent => 1
    case AwaitingSignature => 2
    case Verified => 3
    case Broadcast => 4
    case Confirmed => 5
    case Responded => 6
    case Failed => 7
  }

  /** An edge of the state diagram, or none: forward, or to `failed` from a state that is not terminal. */
  predicate Advances(from: State, to: State) {
    to == from || (!IsFinished(from) && (to.Failed? || Progress(to) == Progress(from) + 1))
  }

  /** Timestamps are written once. */
  ghost predicate Extends(t: Timings, u: Timings) {
    forall s :: s in t ==> s in u && u[s] == t[s]
  }

  lemma StampKeepsOrder(t: Timings, s: Stamp, now: int)
    requires Ordered(t) && FinishedAt !in t && (forall x :: x in t ==> t[x] <= now)
    requires s == FinishedAt || Rank(s) == Rank(Top(t)) + 1
    ensures Ordered(t[s := now]) && s !in t
    ensures s != FinishedAt ==> Top(t[s := now]) == s
    ensures s == FinishedAt ==> Top(t[s := now]) == Top(t)
  {
  }

  /** The stamp a move writes, if it writes one. */
  function StampOf(m: Move): Option<Stamp> {
    match m
    case Lease => Some(LeaseAcquiredAt)
    case Request => Some(SignSentAt)
    case Await => None
    case Sign => Some(SignatureAt)
    case Verify => None
    case Broadcast => Some(BroadcastAt)
    case Confirm => Some(ConfirmedAt)
    case Respond => Some(RespondedAt)
    case Finish => Some(FinishedAt)
    case Fail(_) => Some(FinishedAt)
  }

  lemma MoveStamps(j: Job, m: Move, now: int)
    ensures Patched(j, PatchOf(m, now)).timings == if StampOf(m).Some? then j.timings[StampOf(m).value := now]
      else j.timings
  {
  }

  lemma MoveMayStamp(j: Job, m: Move)
    requires Reached(j.state, Top(j.timings)) && CanMove(j, m) && StampOf(m).Some?
    ensures StampOf(m) == Some(FinishedAt) || Rank(StampOf(m).value) == Rank(Top(j.timings)) + 1
  {
  }

  lemma MoveReaches(j: Job, m: Move, now: int, top: Stamp)
    requires Reached(j.state, Top(j.timings)) && CanMove(j, m)
    requires top == if StampOf(m).Some? && StampOf(m) != Some(FinishedAt) then StampOf(m).value else Top(j.timings)
    ensures var k := Patched(j, PatchOf(m, now));
      && k.state == Moved(FaceOf(j), m).state && Reached(k.state, top) && Advances(j.state, k.state)
      && (IsFinished(k.state) <==> StampOf(m) == Some(FinishedAt)) && !IsFinished(j.state)
      && (k.state.Failed? <==> m.Fail?) && k.failure == if m.Fail? then Some(m.reason) else j.failure
  {
  }

  /** A move takes a sound record one edge further, and rewrites no timestamp. */
  lemma MoveKeepsJob(j: Job, m: Move, clock: int, now: int)
    requires JobOk(j, clock) && CanMove(j, m) && clock <= now
    ensures JobOk(Patched(j, PatchOf(m, now)), now)
    ensures Advances(j.state, Patched(j, PatchOf(m, now)).state)
    ensures Extends(j.timings, Patched(j, PatchOf(m, now)).timings)
    ensures FaceOf(Patched(j, PatchOf(m, now))) == Moved(FaceOf(j), m)
  {
    MoveStamps(j, m, now);
    var top := if StampOf(m).Some? && StampOf(m) != Some(FinishedAt) then StampOf(m).value else Top(j.timings);
    MoveReaches(j, m, now, top);
    if StampOf(m).Some? {
      MoveMayStamp(j, m);
      StampKeepsOrder(j.timings, StampOf(m).value, now);
    }
  }

  // ------------------------------------------------------------------ durations

  function Millis(d: Option<int>): int { if d.Some? then d.value else 0 }

  function StagesSum(d: Durations): int {
    Millis(d.leaseWaitMs) + Millis(d.signatureMs) + Millis(d.confirmationMs) + Millis(d.respondMs)
  }

  predicate NonNegative(d: Option<int>) { d.Some? ==> d.value >= 0 }

  /** The stage durations are non-negative and fit in the total. */
  ghost predicate Adds(d: Durations) {
    && NonNegative(d.leaseWaitMs) && NonNegative(d.signatureMs) && NonNegative(d.confirmationMs)
      && NonNegative(d.respondMs)
    && d.totalMs.Some? && 0 <= StagesSum(d) <= d.totalMs.value
  }

  /** A terminal record's stage durations are present as far as it got, non-negative, and fit in its total. */
  lemma DurationsFit(j: Job, clock: int)
    requires JobOk(j, clock) && IsFinished(j.state)
    ensures Adds(DurationsFor(j.timings))
    ensures var d := DurationsFor(j.timings);
      j.state.Responded? ==> d.leaseWaitMs.Some? && d.signatureMs.Some? && d.confirmationMs.Some? && d.respondMs.Some?
  {
    var t := j.timings;
    if RespondedAt in t { assert Rank(ConfirmedAt) < Rank(RespondedAt); }
    if ConfirmedAt in t { assert Rank(BroadcastAt) < Rank(ConfirmedAt); }
    if BroadcastAt in t { assert Rank(SignatureAt) < Rank(BroadcastAt); }
    if SignatureAt in t { assert Rank(SignSentAt) < Rank(SignatureAt); }
    if SignSentAt in t { assert Rank(LeaseAcquiredAt) < Rank(SignSentAt); }
    if LeaseAcquiredAt in t { assert Rank(AcceptedAt) < Rank(LeaseAcquiredAt); }
  }

  // ------------------------------------------------------------------ runs

  /** An accepted request, or an update made by the run of a job. */
  datatype Op = Admit(job: JobId, mode: Mode, now: int) | Act(job: JobId, move: Move, now: int)

  /** Ids are fresh, admission asks `atCapacity` first, and updates follow the lifecycle. */
  predicate Legal(st: Store, l: Limits, clock: int, op: Op) {
    && clock <= op.now
    && match op
       case Admit(id, _, _) => id !in st.jobs && AtCapacity(st, l).None?
       case Act(id, m, _) => id in st.jobs ==> CanMove(st.jobs[id], m)
  }

  function Applied(st: Store, l: Limits, op: Op): Store {
    match op
    case Admit(id, mode, now) => Create(st, l.retained, id, mode, now)
    case Act(id, m, now) => Update(st, l.retained, id, PatchOf(m, now))
  }

  predicate LegalRun(st: Store, l: Limits, clock: int, ops: seq<Op>)
    decreases |ops|
  {
    ops == [] || (Legal(st, l, clock, ops[0]) && LegalRun(Applied(st, l, ops[0]), l, ops[0].now, ops[1..]))
  }

  function Final(st: Store, l: Limits, ops: seq<Op>): Store
    decreases |ops|
  {
    if ops == [] then st else Final(Applied(st, l, ops[0]), l, ops[1..])
  }

  /** How many jobs can be live at once: `maxJobs` alone does not bound them. */
  function LiveBound(l: Limits): nat {
    if l.maxActive == 0 || l.maxJobs == 0 then 0 else l.maxActive + l.maxJobs - 1
  }

  ghost predicate Bounded(st: Store, l: Limits) {
    && |ActiveIds(st)| <= l.maxActive
    && |LiveIds(st)| <= LiveBound(l)
    && |FinishedIds(st)| <= l.retained
  }

  ghost predicate RecordsOk(st: Store, clock: int) {
    forall id :: id in st.jobs ==> JobOk(st.jobs[id], clock)
  }

  ghost predicate Sound(st: Store, l: Limits, clock: int) {
    WellFormed(st) && RecordsOk(st, clock) && Bounded(st, l)
  }

  lemma PutEffect(st: Store, id: JobId, j: Job)
    requires WellFormed(st) && id in st.jobs
    ensures var next := st.(jobs := st.jobs[id := j]);
      && WellFormed(next)
      && ActiveIds(next) == (if IsActive(j.state) then ActiveIds(st) + {id} else ActiveIds(st) - {id})
      && AwaitingIds(next) == (if j.state.Confirmed? then AwaitingIds(st) + {id} else AwaitingIds(st) - {id})
      && FinishedIds(next) == (if IsFinished(j.state) then FinishedIds(st) + {id} else FinishedIds(st) - {id})
  {
  }

  function NewJob(mode: Mode, now: int): Job { Job(mode, Pending, None, map[AcceptedAt := now]) }

  lemma AddEffect(st: Store, id: JobId, j: Job)
    requires WellFormed(st) && id !in st.jobs && j.state.Pending?
    ensures var put := Store(st.order + [id], st.jobs[id := j]);
      WellFormed(put) && ActiveIds(put) == ActiveIds(st) + {id} && AwaitingIds(put) == AwaitingIds(st)
  {
    assert id !in st.order;
  }

  lemma CreateCounts(st: Store, retained: nat, id: JobId, mode: Mode, now: int)
    requires WellFormed(st) && id !in st.jobs
    ensures var next := Create(st, retained, id, mode, now);
      && WellFormed(next) && |FinishedIds(next)| <= retained
      && ActiveIds(next) == ActiveIds(st) + {id} && AwaitingIds(next) == AwaitingIds(st)
  {
    AddEffect(st, id, NewJob(mode, now));
    PruneKeeps(Store(st.order + [id], st.jobs[id := NewJob(mode, now)]), retained);
  }

  /** From `st` to `next` no record but `id`'s changes, and only finished ones go. */
  ghost predicate OnlyTouches(st: Store, next: Store, id: JobId) {
    && (forall k :: k in next.jobs && k != id ==> k in st.jobs && next.jobs[k] == st.jobs[k])
    && (forall k :: k in st.jobs && k != id && !IsFinished(st.jobs[k].state) ==> k in next.jobs)
  }

  lemma PruneTouches(st: Store, put: Store, retained: nat, id: JobId)
    requires WellFormed(put) && id in put.jobs && OnlyTouches(st, put, id)
    ensures OnlyTouches(st, Prune(put, retained), id)
    ensures id in Prune(put, retained).jobs ==> Prune(put, retained).jobs[id] == put.jobs[id]
    ensures !IsFinished(put.jobs[id].state) ==> id in Prune(put, retained).jobs
  {
    DroppedAreFinished(put, retained);
  }

  lemma CreateTouches(st: Store, retained: nat, id: JobId, mode: Mode, now: int)
    requires WellFormed(st) && id !in st.jobs
    ensures var next := Create(st, retained, id, mode, now);
      OnlyTouches(st, next, id) && id in next.jobs && next.jobs[id] == NewJob(mode, now)
  {
    AddEffect(st, id, NewJob(mode, now));
    PruneTouches(st, Store(st.order + [id], st.jobs[id := NewJob(mode, now)]), retained, id);
  }

  lemma UpdateCounts(st: Store, retained: nat, id: JobId, p: Patch)
    requires WellFormed(st) && id in st.jobs && |FinishedIds(st)| <= retained
    requires IsFinished(st.jobs[id].state) ==> IsFinished(Patched(st.jobs[id], p).state)
    ensures var next, j := Update(st, retained, id, p), Patched(st.jobs[id], p);
      && WellFormed(next) && |FinishedIds(next)| <= retained
      && ActiveIds(next) == (if IsActive(j.state) then ActiveIds(st) + {id} else ActiveIds(st) - {id})
      && AwaitingIds(next) == (if j.state.Confirmed? then AwaitingIds(st) + {id} else AwaitingIds(st) - {id})
  {
    var j := Patched(st.jobs[id], p);
    PutEffect(st, id, j);
    if IsFinished(j.state) {
      PruneKeeps(st.(jobs := st.jobs[id := j]), retained);
    } else {
      assert FinishedIds(st) - {id} == FinishedIds(st);
    }
  }

  lemma UpdateTouches(st: Store, retained: nat, id: JobId, p: Patch)
    requires WellFormed(st) && id in st.jobs
    ensures var next, j := Update(st, retained, id, p), Patched(st.jobs[id], p);
      && OnlyTouches(st, next, id)
      && (id in next.jobs ==> next.jobs[id] == j)
      && (!IsFinished(j.state) ==> id in next.jobs)
  {
    var put := st.(jobs := st.jobs[id := Patched(st.jobs[id], p)]);
    PruneTouches(st, put, retained, id);
  }

  lemma Fewer<T>(a: set<T>, b: set<T>)
    requires a <= b
    ensures |a| <= |b|
  {
    SubsetCount(a, b);
  }

  lemma AdmitKeepsBounds(st: Store, l: Limits, clock: int, op: Op)
    requires op.Admit? && WellFormed(st) && Bounded(st, l) && Legal(st, l, clock, op)
    ensures WellFormed(Applied(st, l, op)) && Bounded(Applied(st, l, op), l)
  {
    CreateCounts(st, l.retained, op.job, op.mode, op.now);
    CountsAddUp(st);
    CountsAddUp(Applied(st, l, op));
    assert op.job !in ActiveIds(st);
  }

  lemma ActKeepsBounds(st: Store, l: Limits, clock: int, op: Op)
    requires op.Act? && op.job in st.jobs && WellFormed(st) && Bounded(st, l) && Legal(st, l, clock, op)
    ensures WellFormed(Applied(st, l, op)) && Bounded(Applied(st, l, op), l)
  {
    var next := Applied(st, l, op);
    ActAdvances(st.jobs[op.job], op.move, op.now);
    UpdateCounts(st, l.retained, op.job, PatchOf(op.move, op.now));
    assert op.job in LiveIds(st);
    Fewer(ActiveIds(next), ActiveIds(st));
    Fewer(LiveIds(next), LiveIds(st));
  }

  lemma ActAdvances(j: Job, m: Move, now: int)
    requires CanMove(j, m)
    ensures !IsFinished(j.state)
    ensures IsActive(Patched(j, PatchOf(m, now)).state) ==> IsActive(j.state)
  {
  }

  lemma OpKeepsBounds(st: Store, l: Limits, clock: int, op: Op)
    requires WellFormed(st) && Bounded(st, l) && Legal(st, l, clock, op)
    ensures WellFormed(Applied(st, l, op)) && Bounded(Applied(st, l, op), l)
  {
    if op.Admit? {
      AdmitKeepsBounds(st, l, clock, op);
    } else if op.job in st.jobs {
      ActKeepsBounds(st, l, clock, op);
    }
  }

  lemma TouchedRecordsOk(st: Store, next: Store, id: JobId, clock: int, now: int)
    requires RecordsOk(st, clock) && clock <= now && OnlyTouches(st, next, id)
    requires id in next.jobs ==> JobOk(next.jobs[id], now)
    ensures RecordsOk(next, now)
  {
    forall k | k in next.jobs ensures JobOk(next.jobs[k], now) {
      if k != id { assert JobOk(st.jobs[k], clock); }
    }
  }

  lemma NewJobOk(mode: Mode, now: int)
    ensures JobOk(NewJob(mode, now), now)
  {
  }

  lemma OpKeepsRecords(st: Store, l: Limits, clock: int, op: Op)
    requires WellFormed(st) && RecordsOk(st, clock) && Legal(st, l, clock, op)
    ensures RecordsOk(Applied(st, l, op), op.now)
  {
    if op.Admit? {
      CreateTouches(st, l.retained, op.job, op.mode, op.now);
      NewJobOk(op.mode, op.now);
    } else if op.job in st.jobs {
      UpdateTouches(st, l.retained, op.job, PatchOf(op.move, op.now));
      MoveKeepsJob(st.jobs[op.job], op.move, clock, op.now);
    }
    TouchedRecordsOk(st, Applied(st, l, op), op.job, clock, op.now);
  }

  lemma OpIsSound(st: Store, l: Limits, clock: int, op: Op)
    requires Sound(st, l, clock) && Legal(st, l, clock, op)
    ensures Sound(Applied(st, l, op), l, op.now)
  {
    OpKeepsBounds(st, l, clock, op);
    OpKeepsRecords(st, l, clock, op);
  }

  function ClockAfter(clock: int, ops: seq<Op>): int { if ops == [] then clock else ops[|ops| - 1].now }

  /**
   * In every run: the ceilings hold, `maxActiveJobs + maxJobs - 1` bounds the live jobs, at most
   * `retained` finished ones are kept, and every record is sound.
   */
  lemma {:induction false} RunIsSound(st: Store, l: Limits, clock: int, ops: seq<Op>)
    requires Sound(st, l, clock) && LegalRun(st, l, clock, ops)
    ensures Sound(Final(st, l, ops), l, ClockAfter(clock, ops))
    decreases |ops|
  {
    hide Sound, Legal, Applied, AtCapacity;
    if ops != [] {
      OpIsSound(st, l, clock, ops[0]);
      RunIsSound(Applied(st, l, ops[0]), l, ops[0].now, ops[1..]);
    }
  }

  /** The whole store is bounded, not only its finished part. */
  lemma StoreIsBounded(l: Limits, ops: seq<Op>, clock: int)
    requires LegalRun(EMPTY, l, clock, ops)
    ensures |Final(EMPTY, l, ops).jobs| <= l.retained + LiveBound(l)
  {
    assert Sound(EMPTY, l, clock);
    RunIsSound(EMPTY, l, clock, ops);
    CountsAddUp(Final(EMPTY, l, ops));
  }

  // ------------------------------------------------------------------ what retention goes by

  /** Of two finished records the first goes first: it finished earlier, or with the other and was created earlier. */
  ghost predicate GoesFirst(st: Store, x: JobId, y: JobId)
    requires x in st.jobs && y in st.jobs
  {
    var s, t := st.jobs[x].timings, st.jobs[y].timings;
    FinishedAt in s && FinishedAt in t
    && (s[FinishedAt] < t[FinishedAt]
        || (s[FinishedAt] == t[FinishedAt] && IndexIn(st.order, x) < IndexIn(st.order, y)))
  }

  lemma FinishTimesDecide(st: Store, clock: int, x: JobId, y: JobId)
    requires x in FinishedIds(st) && y in FinishedIds(st) && JobOk(st.jobs[x], clock) && JobOk(st.jobs[y], clock)
    ensures Before(st, x, y) <==> GoesFirst(st, x, y)
  {
  }

  /**
   * A finished record survives a prune if and only if fewer than `retained` finished records have a later finish time,
   * or the same one and a later creation.
   */
  lemma RetentionGoesByFinish(st: Store, clock: int, retained: nat, id: JobId)
    requires WellFormed(st) && id in FinishedIds(st) && forall x :: x in st.jobs ==> JobOk(st.jobs[x], clock)
    ensures id in Prune(st, retained).jobs <==> |set x | x in FinishedIds(st) && GoesFirst(st, id, x)| < retained
  {
    SurvivesIff(st, retained, id);
    hide WellFormed, Prune, JobOk, GoesFirst, Before;
    forall x | x in FinishedIds(st) ensures Before(st, id, x) <==> GoesFirst(st, id, x) {
      FinishTimesDecide(st, clock, id, x);
    }
    assert Later(st, id) == set x | x in FinishedIds(st) && GoesFirst(st, id, x);
  }
}
