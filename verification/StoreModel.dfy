/**
 * The job store as a value: records keyed by id, in insertion order, with the two capacity
 * ceilings and the pruning of finished records.
 */
module StoreModel {
  import opened Options
  import opened Sequences

  type JobId = nat

  datatype Mode = SelfTransfer | Erc20ZeroTransfer

  datatype State = Pending | SignSent | AwaitingSignature | Verified | Broadcast | Confirmed | Responded | Failed

  datatype Reason =
    | AllWorkersBusy | AllWorkersUnderfunded | PreflightUnderfunded | SignatureTimeout | DerivationMismatch
    | BroadcastFailed | ConfirmationTimeout | TransactionReverted | RespondTimeout | RespondMismatch
    | Shutdown | InternalError

  /** The timestamps of a job, in stage order. */
  datatype Stamp =
    | AcceptedAt | LeaseAcquiredAt | SignSentAt | SignatureAt | BroadcastAt | ConfirmedAt | RespondedAt | FinishedAt

  type Timings = map<Stamp, int>

  datatype Job = Job(mode: Mode, state: State, failure: Option<Reason>, timings: Timings)

  datatype Patch = Patch(state: Option<State>, failure: Option<Reason>, timings: Timings)

  datatype Limits = Limits(maxJobs: nat, retained: nat, maxActive: nat)

  datatype Store = Store(order: seq<JobId>, jobs: map<JobId, Job>)

  datatype Ceiling = Active | AwaitingRespond

  predicate IsFinished(s: State) { s.Responded? || s.Failed? }

  predicate IsActive(s: State) { !IsFinished(s) && !s.Confirmed? }

  const EMPTY := Store([], map[])

  ghost predicate WellFormed(st: Store) {
    Distinct(st.order) && forall id :: id in st.order <==> id in st.jobs
  }

  // ------------------------------------------------------------------ operations

  /** The records in insertion order. */
  function All(order: seq<JobId>, jobs: map<JobId, Job>): seq<Job> {
    if order == [] then []
    else
      var n := |order| - 1;
      All(order[..n], jobs) + (if order[n] in jobs then [jobs[order[n]]] else [])
  }

  function KeyOf(st: Store, id: JobId): int {
    if id in st.jobs && FinishedAt in st.jobs[id].timings then st.jobs[id].timings[FinishedAt] else 0
  }

  function FinishedIn(order: seq<JobId>, jobs: map<JobId, Job>): (r: seq<JobId>)
    ensures forall id :: id in r <==> id in order && id in jobs && IsFinished(jobs[id].state)
  {
    if order == [] then []
    else
      (if order[0] in jobs && IsFinished(jobs[order[0]].state) then [order[0]] else []) + FinishedIn(order[1..], jobs)
  }

  function Finished(st: Store): seq<JobId> { FinishedIn(st.order, st.jobs) }

  /** Puts `id` behind every element of a sorted sequence that does not finish later. */
  function Insert(st: Store, sorted: seq<JobId>, id: JobId): (r: seq<JobId>)
    ensures |r| == |sorted| + 1
  {
    if sorted == [] then [id]
    else if KeyOf(st, sorted[|sorted| - 1]) <= KeyOf(st, id) then sorted + [id]
    else Insert(st, sorted[..|sorted| - 1], id) + [sorted[|sorted| - 1]]
  }

  /** The stable sort by `finishedAt`. */
  function SortByFinish(st: Store, ids: seq<JobId>): (r: seq<JobId>)
    ensures |r| == |ids|
  {
    if ids == [] then [] else Insert(st, SortByFinish(st, ids[..|ids| - 1]), ids[|ids| - 1])
  }

  function Without(order: seq<JobId>, gone: set<JobId>): (r: seq<JobId>)
    ensures forall id :: id in r <==> id in order && id !in gone
  {
    if order == [] then []
    else (if order[0] in gone then [] else [order[0]]) + Without(order[1..], gone)
  }

  /** What `prune` deletes: the head of the sorted list, once it is longer than `retained`. */
  function Dropped(st: Store, retained: nat): set<JobId> {
    var sorted := SortByFinish(st, Finished(st));
    if |sorted| <= retained then {} else Elements(sorted[..|sorted| - retained])
  }

  function Prune(st: Store, retained: nat): Store {
    var gone := Dropped(st, retained);
    Store(Without(st.order, gone), st.jobs - gone)
  }

  function Create(st: Store, retained: nat, id: JobId, mode: Mode, now: int): Store {
    Prune(Store(if id in st.jobs then st.order else st.order + [id],
                st.jobs[id := Job(mode, Pending, None, map[AcceptedAt := now])]), retained)
  }

  function Patched(j: Job, p: Patch): Job {
    Job(j.mode, if p.state.Some? then p.state.value else j.state,
        if p.failure.Some? then p.failure else j.failure, j.timings + p.timings)
  }

  function Update(st: Store, retained: nat, id: JobId, p: Patch): Store {
    if id !in st.jobs then st
    else
      var j := Patched(st.jobs[id], p);
      var next := st.(jobs := st.jobs[id := j]);
      if IsFinished(j.state) then Prune(next, retained) else next
  }

  function Failure(reason: Reason, now: int): Patch { Patch(Some(Failed), Some(reason), map[FinishedAt := now]) }

  function Fail(st: Store, retained: nat, id: JobId, reason: Reason, now: int): Store {
    Update(st, retained, id, Failure(reason, now))
  }

  function ActiveIds(st: Store): set<JobId> { set id | id in st.jobs && IsActive(st.jobs[id].state) }

  function AwaitingIds(st: Store): set<JobId> { set id | id in st.jobs && st.jobs[id].state.Confirmed? }

  function LiveIds(st: Store): set<JobId> { ActiveIds(st) + AwaitingIds(st) }

  function FinishedIds(st: Store): set<JobId> { set id | id in st.jobs && IsFinished(st.jobs[id].state) }

  function AtCapacity(st: Store, l: Limits): Option<Ceiling> {
    if |ActiveIds(st)| >= l.maxActive then Some(Active)
    else if |AwaitingIds(st)| >= l.maxJobs then Some(AwaitingRespond)
    else None
  }

  // ------------------------------------------------------------------ durations

  datatype Durations = Durations(
    leaseWaitMs: Option<int>, signatureMs: Option<int>, confirmationMs: Option<int>, respondMs: Option<int>,
      totalMs: Option<int>)

  function Span(t: Timings, from: Stamp, to: Stamp): Option<int> {
    if from in t && to in t then Some(t[to] - t[from]) else None
  }

  function DurationsFor(t: Timings): Durations {
    Durations(Span(t, AcceptedAt, LeaseAcquiredAt), Span(t, SignSentAt, SignatureAt), Span(t, BroadcastAt, ConfirmedAt),
              Span(t, ConfirmedAt, RespondedAt), Span(t, AcceptedAt, FinishedAt))
  }

  // ------------------------------------------------------------------ pruning

  function IndexIn(s: seq<JobId>, id: JobId): (i: nat)
    ensures i <= |s| && (i < |s| ==> s[i] == id)
    ensures id in s ==> i < |s|
  {
    if s == [] || s[0] == id then 0 else 1 + IndexIn(s[1..], id)
  }

  /** `x` is dropped before `y`: it finished earlier, or at the same time and was created earlier. */
  ghost predicate Before(st: Store, x: JobId, y: JobId) {
    || KeyOf(st, x) < KeyOf(st, y)
    || (KeyOf(st, x) == KeyOf(st, y) && IndexIn(st.order, x) < IndexIn(st.order, y))
  }

  ghost predicate InOrder(st: Store, s: seq<JobId>) {
    forall i, j :: 0 <= i < j < |s| ==> Before(st, s[i], s[j])
  }

  lemma {:induction false} InsertSorts(st: Store, sorted: seq<JobId>, id: JobId)
    requires InOrder(st, sorted)
    requires forall x :: x in sorted ==> IndexIn(st.order, x) < IndexIn(st.order, id)
    ensures InOrder(st, Insert(st, sorted, id))
    ensures |Insert(st, sorted, id)| == |sorted| + 1
    ensures forall x :: x in Insert(st, sorted, id) <==> x in sorted || x == id
  {
    if sorted != [] {
      var init, last := sorted[..|sorted| - 1], sorted[|sorted| - 1];
      assert sorted == init + [last];
      if KeyOf(st, last) <= KeyOf(st, id) {
        forall i | 0 <= i < |sorted| ensures Before(st, sorted[i], id) {
          assert sorted[i] in sorted;
          if i < |sorted| - 1 { assert Before(st, sorted[i], last); }
        }
      } else {
        InsertSorts(st, init, id);
        var r := Insert(st, init, id);
        forall i | 0 <= i < |r| ensures Before(st, r[i], last) {
          assert r[i] in r;
          if r[i] != id {
            var k :| 0 <= k < |init| && init[k] == r[i];
            assert Before(st, sorted[k], sorted[|sorted| - 1]);
          }
        }
      }
    }
  }

  lemma {:induction false} SortSorts(st: Store, ids: seq<JobId>)
    requires forall i, j :: 0 <= i < j < |ids| ==> IndexIn(st.order, ids[i]) < IndexIn(st.order, ids[j])
    ensures InOrder(st, SortByFinish(st, ids))
    ensures |SortByFinish(st, ids)| == |ids|
    ensures forall x :: x in SortByFinish(st, ids) <==> x in ids
  {
    if ids != [] {
      var init, last := ids[..|ids| - 1], ids[|ids| - 1];
      assert ids == init + [last];
      SortSorts(st, init);
      forall x | x in SortByFinish(st, init) ensures IndexIn(st.order, x) < IndexIn(st.order, last) {
        assert x in init;
        var k :| 0 <= k < |init| && init[k] == x;
        assert ids[k] == x;
      }
      InsertSorts(st, SortByFinish(st, init), last);
    }
  }

  lemma IndexShifts(order: seq<JobId>, x: JobId)
    requires order != [] && x in order[1..] && order[0] != x
    ensures IndexIn(order, x) == 1 + IndexIn(order[1..], x)
  {
  }

  ghost predicate FollowsOrder(order: seq<JobId>, f: seq<JobId>) {
    forall i, j :: 0 <= i < j < |f| ==> IndexIn(order, f[i]) < IndexIn(order, f[j])
  }

  lemma OrderShifts(order: seq<JobId>, f: seq<JobId>)
    requires order != [] && FollowsOrder(order[1..], f)
    requires forall x :: x in f ==> x in order[1..] && order[0] != x
    ensures FollowsOrder(order, f) && FollowsOrder(order, [order[0]] + f)
  {
    forall i | 0 <= i < |f| ensures IndexIn(order, f[i]) == 1 + IndexIn(order[1..], f[i]) {
      assert f[i] in f;
      IndexShifts(order, f[i]);
    }
    assert IndexIn(order, order[0]) == 0;
  }

  lemma {:induction false} FinishedInOrder(order: seq<JobId>, jobs: map<JobId, Job>)
    requires Distinct(order)
    ensures FollowsOrder(order, FinishedIn(order, jobs))
  {
    if order != [] {
      var rest := FinishedIn(order[1..], jobs);
      FinishedInOrder(order[1..], jobs);
      forall x | x in rest ensures order[0] != x {
        var k :| 0 <= k < |order[1..]| && order[1..][k] == x;
        assert order[k + 1] == x;
      }
      OrderShifts(order, rest);
      assert [] + rest == rest;
    }
  }

  lemma BeforeIsStrict(st: Store, s: seq<JobId>)
    requires InOrder(st, s)
    ensures Distinct(s)
  {
    forall i, j | 0 <= i < j < |s| ensures s[i] != s[j] {
      assert Before(st, s[i], s[j]);
    }
  }

  /** The sorted list `prune` cuts: every finished record once, in eviction order. */
  lemma SortedFinished(st: Store)
    requires WellFormed(st)
    ensures var sorted := SortByFinish(st, Finished(st));
      InOrder(st, sorted) && Distinct(sorted) && Elements(sorted) == FinishedIds(st) && |sorted| == |FinishedIds(st)|
  {
    var sorted := SortByFinish(st, Finished(st));
    FinishedInOrder(st.order, st.jobs);
    SortSorts(st, Finished(st));
    BeforeIsStrict(st, sorted);
    ElementsCount(sorted);
    assert Elements(sorted) == FinishedIds(st);
  }

  /** Who finished after `id`, or with it and was created after it. */
  ghost function Later(st: Store, id: JobId): set<JobId> { set x | x in FinishedIds(st) && Before(st, id, x) }

  lemma OrderDecides(st: Store, s: seq<JobId>, k: nat, m: nat)
    requires InOrder(st, s) && k < |s| && m < |s| && Before(st, s[k], s[m])
    ensures k < m
  {
  }

  lemma LaterIsTheTail(st: Store, sorted: seq<JobId>, k: nat)
    requires InOrder(st, sorted) && Elements(sorted) == FinishedIds(st) && k < |sorted|
    ensures Later(st, sorted[k]) == Elements(sorted[k + 1..])
  {
    var tail := sorted[k + 1..];
    forall x ensures x in Later(st, sorted[k]) <==> x in Elements(tail) {
      if x in Later(st, sorted[k]) {
        var m :| 0 <= m < |sorted| && sorted[m] == x;
        OrderDecides(st, sorted, k, m);
        assert tail[m - k - 1] == x;
      }
      if x in tail {
        var m :| 0 <= m < |tail| && tail[m] == x;
        assert sorted[k + 1 + m] == x && Before(st, sorted[k], sorted[k + 1 + m]);
      }
    }
  }

  lemma TailCount(s: seq<JobId>, k: nat)
    requires Distinct(s) && k <= |s|
    ensures |Elements(s[k..])| == |s| - k
  {
    ElementsCount(s[k..]);
  }

  lemma InPrefix(s: seq<JobId>, n: nat, k: nat)
    requires Distinct(s) && n <= |s| && k < |s|
    ensures s[k] in s[..n] <==> k < n
  {
    assert k < n ==> s[..n][k] == s[k];
    if s[k] in s[..n] {
      var m :| 0 <= m < n && s[..n][m] == s[k];
      assert s[m] == s[k];
    }
  }

  /** The cut, read off the sorted list. */
  lemma DroppedIff(st: Store, retained: nat, id: JobId)
    requires WellFormed(st) && id in FinishedIds(st)
    ensures id in Dropped(st, retained) <==> |Later(st, id)| >= retained
  {
    var sorted := SortByFinish(st, Finished(st));
    SortedFinished(st);
    assert id in Elements(sorted);
    var k :| 0 <= k < |sorted| && sorted[k] == id;
    LaterIsTheTail(st, sorted, k);
    TailCount(sorted, k + 1);
    if |sorted| > retained {
      InPrefix(sorted, |sorted| - retained, k);
    }
  }

  lemma DroppedAreFinished(st: Store, retained: nat)
    requires WellFormed(st)
    ensures Dropped(st, retained) <= FinishedIds(st)
  {
    var sorted := SortByFinish(st, Finished(st));
    SortedFinished(st);
    forall x | x in Dropped(st, retained) ensures x in FinishedIds(st) {
      assert x in sorted;
      assert x in Elements(sorted);
    }
  }

  /**
   * What `prune` keeps, in one sentence: a record survives iff it is live, or fewer than `retained` finished
   * records come after it. What survives is unchanged.
   */
  lemma SurvivesIff(st: Store, retained: nat, id: JobId)
    requires WellFormed(st) && id in st.jobs
    ensures id in Prune(st, retained).jobs <==> (!IsFinished(st.jobs[id].state) || |Later(st, id)| < retained)
    ensures id in Prune(st, retained).jobs ==> Prune(st, retained).jobs[id] == st.jobs[id]
  {
    DroppedAreFinished(st, retained);
    if id in FinishedIds(st) { DroppedIff(st, retained, id); }
  }
}
