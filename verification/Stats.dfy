/**
 * `/stats`: percentiles of the stage durations, counts by state, reason and mode, and how they
 * agree with the store. Percentile ranks are taken over the rationals.
 */
module Stats {
  import opened Integers
  import opened Options
  import opened Sequences
  import Store = StoreModel
  import Pool = PoolModel
  import StoreSafety
  import Limiter = RateLimiter
  import JobStore
  import WorkerPool

  // ------------------------------------------------------------------ summaries

  function Insert(sorted: seq<int>, v: int): (r: seq<int>)
    ensures |r| == |sorted| + 1
  {
    if sorted == [] || v < sorted[0] then [v] + sorted else [sorted[0]] + Insert(sorted[1..], v)
  }

  function Sort(values: seq<int>): (r: seq<int>)
    ensures |r| == |values|
  {
    if values == [] then [] else Insert(Sort(values[..|values| - 1]), values[|values| - 1])
  }

  /** The rank of the `p`-th percentile of `n` samples. */
  function RankOf(n: nat, p: nat): (k: nat)
    requires n > 0
    ensures k < n
  {
    Min(n - 1, p * n / 100)
  }

  function Percentile(sorted: seq<int>, p: nat): Option<int> {
    if sorted == [] then None else Some(sorted[RankOf(|sorted|, p)])
  }

  datatype Summary = Summary(
    count: nat, min: Option<int>, p05: Option<int>, p50: Option<int>, p95: Option<int>, max: Option<int>)

  function Summarize(values: seq<int>): Summary {
    var sorted := Sort(values);
    Summary(|sorted|,
            if |sorted| > 0 then Some(sorted[0]) else None,
            Percentile(sorted, 5), Percentile(sorted, 50), Percentile(sorted, 95),
            if |sorted| > 0 then Some(sorted[|sorted| - 1]) else None)
  }

  /** How many samples are below `x`, and how many are at most `x`. */
  function Below(s: seq<int>, x: int): nat {
    if s == [] then 0 else Below(s[..|s| - 1], x) + (if s[|s| - 1] < x then 1 else 0)
  }

  function AtMost(s: seq<int>, x: int): nat { Below(s, x + 1) }

  lemma {:induction false} BelowSplits(a: seq<int>, b: seq<int>, x: int)
    ensures Below(a + b, x) == Below(a, x) + Below(b, x)
  {
    if b == [] {
      assert a + b == a;
    } else {
      assert (a + b)[..|a + b| - 1] == a + b[..|b| - 1];
      BelowSplits(a, b[..|b| - 1], x);
    }
  }

  lemma {:induction false} InsertHas(sorted: seq<int>, v: int)
    ensures forall y :: y in Insert(sorted, v) <==> y in sorted || y == v
  {
    if sorted != [] && v >= sorted[0] {
      InsertHas(sorted[1..], v);
      assert sorted == [sorted[0]] + sorted[1..];
    }
  }

  lemma {:induction false} InsertCounts(sorted: seq<int>, v: int, x: int)
    ensures Below(Insert(sorted, v), x) == Below(sorted, x) + (if v < x then 1 else 0)
  {
    assert Below([v], x) == if v < x then 1 else 0;
    if sorted == [] || v < sorted[0] {
      BelowSplits([v], sorted, x);
    } else {
      InsertCounts(sorted[1..], v, x);
      BelowSplits([sorted[0]], sorted[1..], x);
      BelowSplits([sorted[0]], Insert(sorted[1..], v), x);
      assert sorted == [sorted[0]] + sorted[1..];
    }
  }

  lemma {:induction false} InsertKeepsSorted(sorted: seq<int>, v: int)
    requires Sorted(sorted)
    ensures Sorted(Insert(sorted, v))
  {
    if sorted != [] && v >= sorted[0] {
      InsertKeepsSorted(sorted[1..], v);
      InsertHas(sorted[1..], v);
      var rest := Insert(sorted[1..], v);
      forall i | 0 <= i < |rest| ensures sorted[0] <= rest[i] { assert rest[i] in rest; }
    }
  }

  lemma {:induction false} SortSorts(values: seq<int>, x: int)
    ensures Sorted(Sort(values)) && Below(Sort(values), x) == Below(values, x)
    ensures forall y :: y in Sort(values) <==> y in values
  {
    if values != [] {
      var init, last := values[..|values| - 1], values[|values| - 1];
      assert values == init + [last];
      SortSorts(init, x);
      InsertKeepsSorted(Sort(init), last);
      InsertHas(Sort(init), last);
      InsertCounts(Sort(init), last, x);
    }
  }

  lemma {:induction false} BelowInSorted(s: seq<int>, x: int, k: nat)
    requires Sorted(s) && k <= |s|
    requires forall i :: k <= i < |s| ==> s[i] >= x
    ensures Below(s, x) <= k
  {
    if s != [] {
      if k == |s| { BelowInSorted(s[..|s| - 1], x, k - 1); } else { BelowInSorted(s[..|s| - 1], x, k); }
    }
  }

  lemma {:induction false} AboveInSorted(s: seq<int>, x: int, k: nat)
    requires k <= |s| && forall i :: 0 <= i < k ==> s[i] < x
    ensures Below(s, x) >= k
  {
    if k > 0 {
      if k == |s| { AboveInSorted(s[..|s| - 1], x, k - 1); } else { AboveInSorted(s[..|s| - 1], x, k); }
    }
  }

  /** `v` is a sample of rank `k`: at most `k` samples are smaller, and more than `k` are no larger. */
  ghost predicate HasRank(values: seq<int>, v: int, k: nat) {
    v in values && Below(values, v) <= k < AtMost(values, v)
  }

  lemma RankInSorted(values: seq<int>, k: nat)
    requires k < |values|
    ensures HasRank(values, Sort(values)[k], k)
  {
    hide Sort, Below;
    var s := Sort(values);
    var v := s[k];
    SortSorts(values, v);
    SortSorts(values, v + 1);
    BelowInSorted(s, v, k);
    AboveInSorted(s, v + 1, k + 1);
  }

  /** `v` is a sample, at most `p` percent of the samples are smaller, and more than `p` percent are no larger. */
  ghost predicate IsPercentile(values: seq<int>, v: int, p: nat) {
    v in values && 100 * Below(values, v) <= p * |values| < 100 * AtMost(values, v)
  }

  lemma RankIsPercentile(n: nat, p: nat)
    requires n > 0 && p < 100
    ensures 100 * RankOf(n, p) <= p * n < 100 * (RankOf(n, p) + 1)
  {
    assert p * n < 100 * n;
  }

  lemma PercentileInSorted(values: seq<int>, p: nat)
    requires values != [] && p < 100
    ensures IsPercentile(values, Sort(values)[RankOf(|values|, p)], p)
  {
    hide Sort, Below, RankOf;
    RankIsPercentile(|values|, p);
    RankInSorted(values, RankOf(|values|, p));
  }

  lemma {:induction false} BelowGrows(s: seq<int>, x: int, y: int)
    requires x <= y
    ensures Below(s, x) <= Below(s, y)
  {
    if s != [] { BelowGrows(s[..|s| - 1], x, y); }
  }

  /** Percentiles are ordered as their ranks are; in particular there is only one for each rank. */
  lemma PercentilesAscend(values: seq<int>, v: int, w: int, p: nat, q: nat)
    requires IsPercentile(values, v, p) && IsPercentile(values, w, q) && p <= q
    ensures v <= w
  {
    assert p * |values| <= q * |values|;
    if w < v { BelowGrows(values, w + 1, v); }
  }

  /**
   * The summary of any sample list: the least sample, the greatest, and the one sample that is the percentile of each
   * rank, whatever the order of the samples; and they do not decrease from the minimum to the maximum.
   */
  lemma SummaryIsRanked(values: seq<int>)
    requires values != []
    ensures var s, n := Summarize(values), |values|;
      && s.count == n && s.min.Some? && s.p05.Some? && s.p50.Some? && s.p95.Some? && s.max.Some?
      && s.min.value in values && s.max.value in values
      && (forall v :: v in values ==> s.min.value <= v <= s.max.value)
      && IsPercentile(values, s.p05.value, 5) && IsPercentile(values, s.p50.value, 50)
      && IsPercentile(values, s.p95.value, 95)
      && s.min.value <= s.p05.value <= s.p50.value <= s.p95.value <= s.max.value
  {
    hide Sort, IsPercentile, RankOf;
    var n, sorted := |values|, Sort(values);
    PercentileInSorted(values, 5);
    PercentileInSorted(values, 50);
    PercentileInSorted(values, 95);
    SortSorts(values, 0);
    PercentilesAscend(values, sorted[RankOf(n, 5)], sorted[RankOf(n, 50)], 5, 50);
    PercentilesAscend(values, sorted[RankOf(n, 50)], sorted[RankOf(n, 95)], 50, 95);
    assert sorted[0] in sorted && sorted[n - 1] in sorted;
    forall v | v in values ensures sorted[0] <= v <= sorted[n - 1] {
      assert v in sorted;
    }
  }

  /** ... and there is no other such sample. */
  lemma PercentileIsOne(values: seq<int>, v: int, w: int, p: nat)
    requires IsPercentile(values, v, p) && IsPercentile(values, w, p)
    ensures v == w
  {
    PercentilesAscend(values, v, w, p, p);
    PercentilesAscend(values, w, v, p, p);
  }

  // ------------------------------------------------------------------ latencies

  function Collected(jobs: seq<Store.Job>, from: Store.Stamp, to: Store.Stamp): seq<int> {
    if jobs == [] then []
    else
      var n := |jobs| - 1;
      var span := Store.Span(jobs[n].timings, from, to);
      Collected(jobs[..n], from, to) + (if span.Some? then [span.value] else [])
  }

  function InState(jobs: seq<Store.Job>, s: Store.State): seq<Store.Job> {
    if jobs == [] then []
    else InState(jobs[..|jobs| - 1], s) + (if jobs[|jobs| - 1].state == s then [jobs[|jobs| - 1]] else [])
  }

  function InMode(jobs: seq<Store.Job>, m: Store.Mode): seq<Store.Job> {
    if jobs == [] then []
    else InMode(jobs[..|jobs| - 1], m) + (if jobs[|jobs| - 1].mode == m then [jobs[|jobs| - 1]] else [])
  }

  datatype Latencies = Latencies(
    leaseWaitMs: Summary, signatureMs: Summary, confirmationMs: Summary, respondMs: Summary, totalMs: Summary)

  function LatenciesFor(jobs: seq<Store.Job>): Latencies {
    Latencies(Summarize(Collected(jobs, Store.AcceptedAt, Store.LeaseAcquiredAt)),
              Summarize(Collected(jobs, Store.SignSentAt, Store.SignatureAt)),
              Summarize(Collected(jobs, Store.BroadcastAt, Store.ConfirmedAt)),
              Summarize(Collected(jobs, Store.ConfirmedAt, Store.RespondedAt)),
              Summarize(Collected(InState(jobs, Store.Responded), Store.AcceptedAt, Store.FinishedAt)))
  }

  // ------------------------------------------------------------------ counting

  function Occurrences<T(==)>(values: seq<T>, v: T): nat {
    if values == [] then 0 else Occurrences(values[..|values| - 1], v) + (if values[|values| - 1] == v then 1 else 0)
  }

  function Tally<T(==)>(values: seq<T>): map<T, nat> { map v | v in values :: Occurrences(values, v) }

  function At<T(==)>(m: map<T, nat>, k: T): nat { if k in m then m[k] else 0 }

  method CountBy<T(==)>(values: seq<T>) returns (out: map<T, nat>)
    ensures out == Tally(values)
  {
    out := map[];
    for i := 0 to |values|
      invariant out == Tally(values[..i])
    {
      TallyNext(values[..i], values[i]);
      assert values[..i + 1] == values[..i] + [values[i]];
      out := out[values[i] := At(out, values[i]) + 1];
    }
    assert values[..|values|] == values;
  }

  lemma {:induction false} AbsentMeansZero<T>(values: seq<T>, v: T)
    ensures v !in values ==> Occurrences(values, v) == 0
  {
    if values != [] { AbsentMeansZero(values[..|values| - 1], v); }
  }

  lemma TallyNext<T>(values: seq<T>, v: T)
    ensures Tally(values + [v]) == Tally(values)[v := At(Tally(values), v) + 1]
  {
    AbsentMeansZero(values, v);
    assert (values + [v])[..|values|] == values;
    forall u | u in values + [v]
      ensures Occurrences(values + [v], u) == if u == v then At(Tally(values), v) + 1 else Occurrences(values, u)
    {
    }
  }

  /** The counts over a list of keys, each of them once. */
  function SumAt<T(==)>(keys: seq<T>, m: map<T, nat>): nat {
    if keys == [] then 0 else At(m, keys[0]) + SumAt(keys[1..], m)
  }

  function SumOccurrences<T(==)>(keys: seq<T>, values: seq<T>): nat {
    if keys == [] then 0 else Occurrences(values, keys[0]) + SumOccurrences(keys[1..], values)
  }

  lemma {:induction false} OneMoreValue<T>(keys: seq<T>, values: seq<T>, v: T)
    requires Distinct(keys)
    ensures SumOccurrences(keys, values + [v]) == SumOccurrences(keys, values) + (if v in keys then 1 else 0)
  {
    if keys != [] {
      assert Distinct(keys[1..]) && keys[0] !in keys[1..];
      OneMoreValue(keys[1..], values, v);
      assert (values + [v])[..|values|] == values;
    }
  }

  lemma {:induction false} OccurrencesAddUp<T>(keys: seq<T>, values: seq<T>)
    requires Distinct(keys) && forall v :: v in values ==> v in keys
    ensures SumOccurrences(keys, values) == |values|
  {
    if values == [] {
      NoValues(keys);
    } else {
      var init, last := values[..|values| - 1], values[|values| - 1];
      assert values == init + [last];
      OccurrencesAddUp(keys, init);
      OneMoreValue(keys, init, last);
    }
  }

  lemma {:induction false} NoValues<T>(keys: seq<T>)
    ensures SumOccurrences<T>(keys, []) == 0
  {
    if keys != [] { NoValues(keys[1..]); }
  }

  lemma {:induction false} TallySums<T>(keys: seq<T>, values: seq<T>)
    ensures SumAt(keys, Tally(values)) == SumOccurrences(keys, values)
  {
    if keys != [] {
      TallySums(keys[1..], values);
      AbsentMeansZero(values, keys[0]);
    }
  }

  /** Every value is counted once: the tally over all its possible keys sums to the number of values. */
  lemma TallyCounts<T>(keys: seq<T>, values: seq<T>)
    requires Distinct(keys) && forall v :: v in values ==> v in keys
    ensures SumAt(keys, Tally(values)) == |values|
  {
    TallySums(keys, values);
    OccurrencesAddUp(keys, values);
  }

  // ------------------------------------------------------------------ the report

  const STATES := [Store.Pending, Store.SignSent, Store.AwaitingSignature, Store.Verified, Store.Broadcast,
                   Store.Confirmed, Store.Responded, Store.Failed]

  const REASONS := [
    Store.AllWorkersBusy, Store.AllWorkersUnderfunded, Store.PreflightUnderfunded, Store.SignatureTimeout,
    Store.DerivationMismatch, Store.BroadcastFailed, Store.ConfirmationTimeout, Store.TransactionReverted,
    Store.RespondTimeout, Store.RespondMismatch, Store.Shutdown, Store.InternalError]

  datatype ModeStats = ModeStats(total: nat, succeeded: nat, failed: nat, latencies: Latencies)

  datatype Rate = Rate(usedInWindow: nat, retryAfterMs: int)

  /** The limiter is asked both questions at one reading of the clock. */
  function RateOf(l: Limiter.Limits, hits: seq<int>, now: int): Rate {
    var asked := Limiter.HitsAfter(l, hits, Limiter.Used(now));
    Rate(Limiter.ReplyTo(l, hits, Limiter.Used(now)).n, Limiter.ReplyTo(l, asked, Limiter.RetryAfter(now)).ms)
  }

  function HitsAsked(l: Limiter.Limits, hits: seq<int>, now: int): seq<int> {
    Limiter.HitsAfter(l, Limiter.HitsAfter(l, hits, Limiter.Used(now)), Limiter.RetryAfter(now))
  }

  datatype Report = Report(
    total: nat, active: nat, awaitingRespond: nat, live: nat,
    states: map<Store.State, nat>, failures: map<Store.Reason, nat>,
    rate: Rate,
    poolSize: nat, busy: nat, waiting: nat, underfunded: nat,
    byMode: map<Store.Mode, ModeStats>)

  function StatesOf(jobs: seq<Store.Job>): seq<Store.State> {
    if jobs == [] then [] else StatesOf(jobs[..|jobs| - 1]) + [jobs[|jobs| - 1].state]
  }

  function ReasonsOf(jobs: seq<Store.Job>): seq<Store.Reason> {
    if jobs == [] then []
    else
      var n := |jobs| - 1;
      ReasonsOf(jobs[..n]) + (if jobs[n].failure.Some? then [jobs[n].failure.value] else [])
  }

  function ModeReport(jobs: seq<Store.Job>): ModeStats {
    ModeStats(|jobs|, |InState(jobs, Store.Responded)|, |InState(jobs, Store.Failed)|, LatenciesFor(jobs))
  }

  function Modes(jobs: seq<Store.Job>): set<Store.Mode> {
    if jobs == [] then {} else Modes(jobs[..|jobs| - 1]) + {jobs[|jobs| - 1].mode}
  }

  function ByMode(modes: set<Store.Mode>, jobs: seq<Store.Job>): map<Store.Mode, ModeStats> {
    map m | m in modes :: ModeReport(InMode(jobs, m))
  }

  function ReportOf(st: Store.Store, rate: Rate, pool: Pool.Pool): Report {
    var jobs := Store.All(st.order, st.jobs);
    Report(|jobs|, |Store.ActiveIds(st)|, |Store.AwaitingIds(st)|, |Store.ActiveIds(st)| + |Store.AwaitingIds(st)|,
           Tally(StatesOf(jobs)), Tally(ReasonsOf(jobs)),
           rate,
           |pool.workers|, Pool.Busy(pool.workers), |pool.waiters|, Pool.Underfunded(pool.workers),
           ByMode(Modes(jobs), jobs))
  }

  /** The loop over the modes, in order of first appearance. */
  method ReportModes(jobs: seq<Store.Job>) returns (byMode: map<Store.Mode, ModeStats>)
    ensures byMode == ByMode(Modes(jobs), jobs)
  {
    hide InMode, ModeReport;
    byMode := map[];
    for i := 0 to |jobs|
      invariant byMode == ByMode(Modes(jobs[..i]), jobs)
    {
      assert jobs[..i + 1][..i] == jobs[..i];
      var mode := jobs[i].mode;
      if mode !in byMode { byMode := byMode[mode := ModeReport(InMode(jobs, mode))]; }
    }
    assert jobs[..|jobs|] == jobs;
  }

  /** The two filters over the workers. */
  method CountWorkers(pool: WorkerPool.WorkerPool) returns (busy: nat, underfunded: nat)
    requires pool.SameWorkers()
    ensures busy == Pool.Busy(pool.model.workers) && underfunded == Pool.Underfunded(pool.model.workers)
  {
    busy, underfunded := 0, 0;
    ghost var ws := pool.model.workers;
    for i := 0 to |pool.workers|
      invariant busy == Pool.Busy(ws[..i]) && underfunded == Pool.Underfunded(ws[..i])
    {
      assert ws[..i + 1][..i] == ws[..i];
      if pool.workers[i].busy { busy := busy + 1; }
      if pool.workers[i].underfunded { underfunded := underfunded + 1; }
    }
    assert ws[..|ws|] == ws;
  }

  /** The three counters of the store. */
  method CountJobs(store: JobStore.JobStore) returns (active: nat, awaiting: nat, live: nat)
    requires store.Valid()
    ensures active == |Store.ActiveIds(store.model)| && awaiting == |Store.AwaitingIds(store.model)|
    ensures live == active + awaiting
  {
    active := store.ActiveCount();
    awaiting := store.AwaitingRespondCount();
    live := store.LiveCount();
    StoreSafety.CountsAddUp(store.model);
  }

  /** `used()` and then `retryAfterMs()`, at one reading of the clock. */
  method AskLimiter(limiter: Limiter.RateLimiter, now: int) returns (rate: Rate)
    modifies limiter
    ensures rate == RateOf(limiter.limits, old(limiter.hits), now)
    ensures limiter.hits == HitsAsked(limiter.limits, old(limiter.hits), now)
  {
    hide Limiter.Pruned;
    var used := limiter.Used(now);
    var retry := limiter.RetryAfterMs(now);
    rate := Rate(used, retry);
  }

  method BuildStats(store: JobStore.JobStore, limiter: Limiter.RateLimiter, pool: WorkerPool.WorkerPool, now: int)
    returns (r: Report)
    requires store.Valid() && pool.Valid()
    modifies limiter
    ensures r == ReportOf(store.model, RateOf(limiter.limits, old(limiter.hits), now), pool.model)
    ensures limiter.hits == HitsAsked(limiter.limits, old(limiter.hits), now)
  {
    hide ByMode, Modes, Tally, StatesOf, ReasonsOf, RateOf, HitsAsked;
    hide Store.All, Store.WellFormed, Store.ActiveIds, Store.AwaitingIds, Pool.Busy, Pool.Underfunded;
    var jobs := store.All();
    var byMode := ReportModes(jobs);
    var active, awaiting, live := CountJobs(store);
    var states := CountBy(StatesOf(jobs));
    var failures := CountBy(ReasonsOf(jobs));
    var busy, underfunded := CountWorkers(pool);
    var rate := AskLimiter(limiter, now);
    r := Report(|jobs|, active, awaiting, live, states, failures, rate,
                |pool.workers|, busy, |pool.waiters|, underfunded, byMode);
  }

  // ------------------------------------------------------------------ the report agrees with the store

  function TotalIn(r: Report, m: Store.Mode): nat { if m in r.byMode then r.byMode[m].total else 0 }

  function FailedIn(r: Report, m: Store.Mode): nat { if m in r.byMode then r.byMode[m].failed else 0 }

  function SucceededIn(r: Report, m: Store.Mode): nat { if m in r.byMode then r.byMode[m].succeeded else 0 }

  /** How many of the records are neither finished nor confirmed. */
  function CountActive(jobs: seq<Store.Job>): nat {
    if jobs == [] then 0
    else CountActive(jobs[..|jobs| - 1]) + (if Store.IsActive(jobs[|jobs| - 1].state) then 1 else 0)
  }

  lemma {:induction false} PartsAddUp(jobs: seq<Store.Job>)
    ensures var s := StatesOf(jobs);
      && |jobs| == |s|
      && |s| == CountActive(jobs) + Occurrences(s, Store.Confirmed) + Occurrences(s, Store.Responded)
                + Occurrences(s, Store.Failed)
  {
    if jobs != [] {
      var init, last := jobs[..|jobs| - 1], jobs[|jobs| - 1];
      PartsAddUp(init);
      assert StatesOf(jobs)[..|jobs| - 1] == StatesOf(init);
    }
  }

  lemma {:induction false} FailuresHaveReasons(jobs: seq<Store.Job>)
    requires forall j :: j in jobs ==> (j.failure.Some? <==> j.state.Failed?)
    ensures |ReasonsOf(jobs)| == Occurrences(StatesOf(jobs), Store.Failed)
  {
    if jobs != [] {
      var init, last := jobs[..|jobs| - 1], jobs[|jobs| - 1];
      FailuresHaveReasons(init);
      PartsAddUp(init);
      assert StatesOf(jobs)[..|jobs| - 1] == StatesOf(init);
    }
  }

  lemma OneMoreJob(jobs: seq<Store.Job>, j: Store.Job, s: Store.State)
    ensures |InState(jobs + [j], s)| == |InState(jobs, s)| + (if j.state == s then 1 else 0)
    ensures Occurrences(StatesOf(jobs + [j]), s) == Occurrences(StatesOf(jobs), s) + (if j.state == s then 1 else 0)
  {
    assert (jobs + [j])[..|jobs|] == jobs;
    PartsAddUp(jobs);
    assert StatesOf(jobs + [j])[..|jobs|] == StatesOf(jobs);
  }

  lemma OneMoreInMode(jobs: seq<Store.Job>, j: Store.Job, m: Store.Mode)
    ensures InMode(jobs + [j], m) == if j.mode == m then InMode(jobs, m) + [j] else InMode(jobs, m)
  {
    assert (jobs + [j])[..|jobs|] == jobs;
  }

  lemma {:induction false} ModesPartition(jobs: seq<Store.Job>)
    ensures |InMode(jobs, Store.SelfTransfer)| + |InMode(jobs, Store.Erc20ZeroTransfer)| == |jobs|
  {
    if jobs != [] {
      var init, last := jobs[..|jobs| - 1], jobs[|jobs| - 1];
      ModesPartition(init);
      assert jobs == init + [last];
      OneMoreInMode(init, last, Store.SelfTransfer);
      OneMoreInMode(init, last, Store.Erc20ZeroTransfer);
    }
  }

  lemma {:induction false} ModesPartitionState(jobs: seq<Store.Job>, s: Store.State)
    ensures |InState(InMode(jobs, Store.SelfTransfer), s)| + |InState(InMode(jobs, Store.Erc20ZeroTransfer), s)|
      == Occurrences(StatesOf(jobs), s)
  {
    if jobs != [] {
      var init, last := jobs[..|jobs| - 1], jobs[|jobs| - 1];
      ModesPartitionState(init, s);
      assert jobs == init + [last];
      hide InMode, InState, StatesOf, Occurrences;
      OneMoreInMode(init, last, Store.SelfTransfer);
      OneMoreInMode(init, last, Store.Erc20ZeroTransfer);
      OneMoreJob(init, last, s);
      OneMoreJob(InMode(init, last.mode), last, s);
    }
  }

  lemma {:induction false} AbsentMode(jobs: seq<Store.Job>, m: Store.Mode)
    requires m !in Modes(jobs)
    ensures InMode(jobs, m) == []
  {
    if jobs != [] { AbsentMode(jobs[..|jobs| - 1], m); }
  }

  lemma ModeFigures(st: Store.Store, rate: Rate, pool: Pool.Pool, m: Store.Mode)
    ensures var r, jobs := ReportOf(st, rate, pool), InMode(Store.All(st.order, st.jobs), m);
      && TotalIn(r, m) == |jobs| && FailedIn(r, m) == |InState(jobs, Store.Failed)|
      && SucceededIn(r, m) == |InState(jobs, Store.Responded)|
  {
    var jobs := Store.All(st.order, st.jobs);
    if m !in Modes(jobs) { AbsentMode(jobs, m); }
  }

  lemma {:induction false} RecordsCount(order: seq<Store.JobId>, jobs: map<Store.JobId, Store.Job>)
    requires Distinct(order) && forall id :: id in order ==> id in jobs
    ensures |Store.All(order, jobs)| == |order|
    ensures CountActive(Store.All(order, jobs)) == |JobStore.ActiveAmong(order, jobs)|
    ensures Occurrences(StatesOf(Store.All(order, jobs)), Store.Confirmed) == |JobStore.AwaitingAmong(order, jobs)|
    ensures forall j :: j in Store.All(order, jobs) ==> exists id :: id in order && id in jobs && jobs[id] == j
  {
    if order != [] {
      var n := |order| - 1;
      var init, id := order[..n], order[n];
      assert order == init + [id] && id !in init;
      RecordsCount(init, jobs);
      JobStore.ActiveGrows(init, id, jobs);
      JobStore.AwaitingGrows(init, id, jobs);
      OneMoreJob(Store.All(init, jobs), jobs[id], Store.Confirmed);
      assert Store.All(order, jobs) == Store.All(init, jobs) + [jobs[id]];
      assert Store.All(order, jobs)[..n] == Store.All(init, jobs);
    }
  }

  /** The report, related to itself and to the store. */
  ghost predicate Consistent(st: Store.Store, r: Report) {
    && r.total == |st.jobs| == r.live + At(r.states, Store.Responded) + At(r.states, Store.Failed)
    && r.live == r.active + r.awaitingRespond && r.awaitingRespond == At(r.states, Store.Confirmed)
    && SumAt(STATES, r.states) == r.total
    && SumAt(REASONS, r.failures) == At(r.states, Store.Failed)
    && TotalIn(r, Store.SelfTransfer) + TotalIn(r, Store.Erc20ZeroTransfer) == r.total
    && SucceededIn(r, Store.SelfTransfer) + SucceededIn(r, Store.Erc20ZeroTransfer) == At(r.states, Store.Responded)
    && FailedIn(r, Store.SelfTransfer) + FailedIn(r, Store.Erc20ZeroTransfer) == At(r.states, Store.Failed)
  }

  lemma OrderCount(s: seq<Store.JobId>, jobs: map<Store.JobId, Store.Job>)
    requires Distinct(s) && forall id :: id in s <==> id in jobs
    ensures |s| == |jobs|
  {
    ElementsCount(s);
    assert Elements(s) == jobs.Keys;
  }

  lemma AllStates(s: Store.State)
    ensures s in STATES && Distinct(STATES)
  {
    match s
    case Pending => assert STATES[0] == s;
    case SignSent => assert STATES[1] == s;
    case AwaitingSignature => assert STATES[2] == s;
    case Verified => assert STATES[3] == s;
    case Broadcast => assert STATES[4] == s;
    case Confirmed => assert STATES[5] == s;
    case Responded => assert STATES[6] == s;
    case Failed => assert STATES[7] == s;
  }

  lemma AllReasons(r: Store.Reason)
    ensures r in REASONS && Distinct(REASONS)
  {
    match r
    case AllWorkersBusy => assert REASONS[0] == r;
    case AllWorkersUnderfunded => assert REASONS[1] == r;
    case PreflightUnderfunded => assert REASONS[2] == r;
    case SignatureTimeout => assert REASONS[3] == r;
    case DerivationMismatch => assert REASONS[4] == r;
    case BroadcastFailed => assert REASONS[5] == r;
    case ConfirmationTimeout => assert REASONS[6] == r;
    case TransactionReverted => assert REASONS[7] == r;
    case RespondTimeout => assert REASONS[8] == r;
    case RespondMismatch => assert REASONS[9] == r;
    case Shutdown => assert REASONS[10] == r;
    case InternalError => assert REASONS[11] == r;
  }

  lemma TallyAt<T>(values: seq<T>, v: T)
    ensures At(Tally(values), v) == Occurrences(values, v)
  {
    AbsentMeansZero(values, v);
  }

  lemma CountsAgree(st: Store.Store, rate: Rate, pool: Pool.Pool)
    requires Store.WellFormed(st)
    ensures var r := ReportOf(st, rate, pool);
      && r.total == |st.jobs| == r.live + At(r.states, Store.Responded) + At(r.states, Store.Failed)
      && r.live == r.active + r.awaitingRespond && r.awaitingRespond == At(r.states, Store.Confirmed)
      && SumAt(STATES, r.states) == r.total
  {
    var jobs := Store.All(st.order, st.jobs);
    RecordsCount(st.order, st.jobs);
    OrderCount(st.order, st.jobs);
    JobStore.AmongAll(st);
    PartsAddUp(jobs);
    var s := StatesOf(jobs);
    hide Store.All, StatesOf, Tally, Occurrences, Store.ActiveIds, Store.AwaitingIds, Store.WellFormed;
    forall v | v in s ensures v in STATES { AllStates(v); }
    AllStates(Store.Failed);
    TallyCounts(STATES, s);
    TallyAt(s, Store.Responded);
    TallyAt(s, Store.Failed);
    TallyAt(s, Store.Confirmed);
  }

  lemma ReasonsAgree(st: Store.Store, rate: Rate, pool: Pool.Pool)
    requires Store.WellFormed(st)
    requires forall id :: id in st.jobs ==> (st.jobs[id].failure.Some? <==> st.jobs[id].state.Failed?)
    ensures var r := ReportOf(st, rate, pool); SumAt(REASONS, r.failures) == At(r.states, Store.Failed)
  {
    var jobs := Store.All(st.order, st.jobs);
    RecordsCount(st.order, st.jobs);
    FailuresHaveReasons(jobs);
    hide Store.All, StatesOf, ReasonsOf, Tally, Occurrences;
    forall v | v in ReasonsOf(jobs) ensures v in REASONS { AllReasons(v); }
    AllReasons(Store.Shutdown);
    TallyCounts(REASONS, ReasonsOf(jobs));
    TallyAt(StatesOf(jobs), Store.Failed);
  }

  lemma ModesAgree(st: Store.Store, rate: Rate, pool: Pool.Pool)
    ensures var r := ReportOf(st, rate, pool);
      && TotalIn(r, Store.SelfTransfer) + TotalIn(r, Store.Erc20ZeroTransfer) == r.total
      && SucceededIn(r, Store.SelfTransfer) + SucceededIn(r, Store.Erc20ZeroTransfer) == At(r.states, Store.Responded)
      && FailedIn(r, Store.SelfTransfer) + FailedIn(r, Store.Erc20ZeroTransfer) == At(r.states, Store.Failed)
  {
    var jobs := Store.All(st.order, st.jobs);
    ModeFigures(st, rate, pool, Store.SelfTransfer);
    ModeFigures(st, rate, pool, Store.Erc20ZeroTransfer);
    hide TotalIn, SucceededIn, FailedIn, Store.All, InMode, InState, StatesOf, Tally, Occurrences;
    ModesPartition(jobs);
    ModesPartitionState(jobs, Store.Responded);
    ModesPartitionState(jobs, Store.Failed);
    TallyAt(StatesOf(jobs), Store.Responded);
    TallyAt(StatesOf(jobs), Store.Failed);
  }

  /**
   * For every store whose records carry a reason exactly when they failed: the report's total is the number of
   * records, and the counts by liveness, by state and by mode each add up to it, the reasons to the failed ones.
   */
  lemma StatsAgree(st: Store.Store, rate: Rate, pool: Pool.Pool)
    requires Store.WellFormed(st)
    requires forall id :: id in st.jobs ==> (st.jobs[id].failure.Some? <==> st.jobs[id].state.Failed?)
    ensures Consistent(st, ReportOf(st, rate, pool))
  {
    hide ReportOf, Store.WellFormed, SumAt, TotalIn, SucceededIn, FailedIn;
    CountsAgree(st, rate, pool);
    ReasonsAgree(st, rate, pool);
    ModesAgree(st, rate, pool);
  }
}
