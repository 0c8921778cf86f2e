/**
 * The figures of `/stats` against the records of the store: each count is the number of records it is named after,
 * and each latency describes the spans between two stamps of the records that have both.
 */
module Reports {
  import opened Options
  import opened Sequences
  import Store = StoreModel
  import Pool = PoolModel
  import opened Stats

  type JobId = Store.JobId

  // ------------------------------------------------------------------ counting records

  function HowMany(jobs: seq<Store.Job>, p: Store.Job -> bool): nat {
    if jobs == [] then 0 else HowMany(jobs[..|jobs| - 1], p) + (if p(jobs[|jobs| - 1]) then 1 else 0)
  }

  ghost function Among(order: seq<JobId>, jobs: map<JobId, Store.Job>, p: Store.Job -> bool): set<JobId> {
    set id | id in order && id in jobs && p(jobs[id])
  }

  /** The records that meet a condition. */
  ghost function Those(st: Store.Store, p: Store.Job -> bool): set<JobId> { set id | id in st.jobs && p(st.jobs[id]) }

  lemma AmongGrows(order: seq<JobId>, id: JobId, jobs: map<JobId, Store.Job>, p: Store.Job -> bool)
    requires id !in order && id in jobs
    ensures |Among(order + [id], jobs, p)| == |Among(order, jobs, p)| + (if p(jobs[id]) then 1 else 0)
  {
    assert Among(order + [id], jobs, p)
      == if p(jobs[id]) then Among(order, jobs, p) + {id} else Among(order, jobs, p);
  }

  lemma {:induction false} RecordsAreCounted(order: seq<JobId>, jobs: map<JobId, Store.Job>, p: Store.Job -> bool)
    requires Distinct(order) && forall id :: id in order ==> id in jobs
    ensures HowMany(Store.All(order, jobs), p) == |Among(order, jobs, p)|
  {
    if order == [] {
      assert Among([], jobs, p) == {};
    } else {
      var n := |order| - 1;
      var init, id := order[..n], order[n];
      assert order == init + [id] && id !in init;
      RecordsAreCounted(init, jobs, p);
      AmongGrows(init, id, jobs, p);
      assert (Store.All(init, jobs) + [jobs[id]])[..|Store.All(init, jobs)|] == Store.All(init, jobs);
    }
  }

  lemma StoreIsCounted(st: Store.Store, p: Store.Job -> bool)
    requires Store.WellFormed(st)
    ensures HowMany(Store.All(st.order, st.jobs), p) == |Those(st, p)|
  {
    RecordsAreCounted(st.order, st.jobs, p);
    assert Among(st.order, st.jobs, p) == Those(st, p);
  }

  lemma {:induction false} OrderIsKept(order: seq<JobId>, jobs: map<JobId, Store.Job>, i: nat)
    requires i < |order| && forall id :: id in order ==> id in jobs
    ensures |Store.All(order, jobs)| == |order| && Store.All(order, jobs)[i] == jobs[order[i]]
  {
    var n := |order| - 1;
    if i < n {
      OrderIsKept(order[..n], jobs, i);
    } else if n > 0 {
      OrderIsKept(order[..n], jobs, 0);
    }
  }

  /** The list of records is the records in the order they were created in. */
  lemma AllIsInOrder(st: Store.Store, i: nat)
    requires Store.WellFormed(st) && i < |st.order|
    ensures |Store.All(st.order, st.jobs)| == |st.order| && Store.All(st.order, st.jobs)[i] == st.jobs[st.order[i]]
  {
    OrderIsKept(st.order, st.jobs, i);
  }

  lemma {:induction false} SomeIsCounted(jobs: seq<Store.Job>, p: Store.Job -> bool)
    ensures HowMany(jobs, p) > 0 <==> exists j :: j in jobs && p(j)
  {
    if jobs != [] {
      var init, last := jobs[..|jobs| - 1], jobs[|jobs| - 1];
      assert jobs == init + [last];
      SomeIsCounted(init, p);
      assert last in jobs;
    }
  }

  lemma {:induction false} SameCount(jobs: seq<Store.Job>, p: Store.Job -> bool, q: Store.Job -> bool)
    requires forall j :: j in jobs ==> p(j) == q(j)
    ensures HowMany(jobs, p) == HowMany(jobs, q)
  {
    if jobs != [] { SameCount(jobs[..|jobs| - 1], p, q); }
  }

  // ------------------------------------------------------------------ the lists the report is made from

  lemma OneMoreOccurrence<T>(values: seq<T>, v: T, u: T)
    ensures Occurrences(values + [v], u) == Occurrences(values, u) + (if v == u then 1 else 0)
  {
    assert (values + [v])[..|values|] == values;
  }

  lemma {:induction false} StatesAreCounted(jobs: seq<Store.Job>, s: Store.State, p: Store.Job -> bool)
    requires forall j: Store.Job :: p(j) <==> j.state == s
    ensures Occurrences(StatesOf(jobs), s) == HowMany(jobs, p)
  {
    if jobs != [] {
      var init, last := jobs[..|jobs| - 1], jobs[|jobs| - 1];
      StatesAreCounted(init, s, p);
      OneMoreOccurrence(StatesOf(init), last.state, s);
    }
  }

  lemma {:induction false} ReasonsAreCounted(jobs: seq<Store.Job>, r: Store.Reason, p: Store.Job -> bool)
    requires forall j: Store.Job :: p(j) <==> j.failure == Some(r)
    ensures Occurrences(ReasonsOf(jobs), r) == HowMany(jobs, p)
  {
    if jobs != [] {
      var init, last := jobs[..|jobs| - 1], jobs[|jobs| - 1];
      ReasonsAreCounted(init, r, p);
      hide Occurrences;
      if last.failure.Some? {
        OneMoreOccurrence(ReasonsOf(init), last.failure.value, r);
      } else {
        assert ReasonsOf(init) + [] == ReasonsOf(init);
      }
    }
  }

  lemma {:induction false} ModeIsCounted(jobs: seq<Store.Job>, m: Store.Mode, p: Store.Job -> bool,
      q: Store.Job -> bool)
    requires forall j: Store.Job :: q(j) <==> j.mode == m && p(j)
    ensures HowMany(InMode(jobs, m), p) == HowMany(jobs, q)
  {
    if jobs != [] {
      var init := jobs[..|jobs| - 1];
      ModeIsCounted(init, m, p, q);
      assert InMode(init, m) + [] == InMode(init, m);
      assert InMode(jobs, m)[..|InMode(init, m)|] == InMode(init, m);
    }
  }

  lemma {:induction false} StateIsCounted(jobs: seq<Store.Job>, s: Store.State, p: Store.Job -> bool,
      q: Store.Job -> bool)
    requires forall j: Store.Job :: q(j) <==> j.state == s && p(j)
    ensures HowMany(InState(jobs, s), p) == HowMany(jobs, q)
  {
    if jobs != [] {
      var init := jobs[..|jobs| - 1];
      StateIsCounted(init, s, p, q);
      assert InState(init, s) + [] == InState(init, s);
      assert InState(jobs, s)[..|InState(init, s)|] == InState(init, s);
    }
  }

  lemma {:induction false} AllAreCounted(jobs: seq<Store.Job>, p: Store.Job -> bool)
    requires forall j: Store.Job :: p(j)
    ensures HowMany(jobs, p) == |jobs|
  {
    if jobs != [] { AllAreCounted(jobs[..|jobs| - 1], p); }
  }

  // ------------------------------------------------------------------ counts

  ghost function InStateIds(st: Store.Store, s: Store.State): set<JobId> {
    set id | id in st.jobs && st.jobs[id].state == s
  }

  ghost function FailedFor(st: Store.Store, r: Store.Reason): set<JobId> {
    set id | id in st.jobs && st.jobs[id].failure == Some(r)
  }

  ghost function OfMode(st: Store.Store, m: Store.Mode): set<JobId> { set id | id in st.jobs && st.jobs[id].mode == m }

  lemma TallyHas<T>(values: seq<T>, v: T)
    ensures At(Tally(values), v) == Occurrences(values, v)
    ensures v in Tally(values) <==> Occurrences(values, v) > 0
  {
    TallyAt(values, v);
    PresentMeansOne(values, v);
  }

  lemma {:induction false} PresentMeansOne<T>(values: seq<T>, v: T)
    ensures v in values <==> Occurrences(values, v) > 0
  {
    if values != [] {
      PresentMeansOne(values[..|values| - 1], v);
      assert values == values[..|values| - 1] + [values[|values| - 1]];
    }
  }

  lemma StateIsExact(st: Store.Store, s: Store.State)
    requires Store.WellFormed(st)
    ensures var states := Tally(StatesOf(Store.All(st.order, st.jobs)));
      At(states, s) == |InStateIds(st, s)| && (s in states <==> InStateIds(st, s) != {})
  {
    hide Store.WellFormed, Store.All, Tally, StatesOf, Occurrences, HowMany;
    var jobs := Store.All(st.order, st.jobs);
    var inState := (j: Store.Job) => j.state == s;
    StatesAreCounted(jobs, s, inState);
    StoreIsCounted(st, inState);
    assert Those(st, inState) == InStateIds(st, s);
    TallyHas(StatesOf(jobs), s);
  }

  lemma ReasonIsExact(st: Store.Store, r: Store.Reason)
    requires Store.WellFormed(st)
    ensures var failures := Tally(ReasonsOf(Store.All(st.order, st.jobs)));
      At(failures, r) == |FailedFor(st, r)| && (r in failures <==> FailedFor(st, r) != {})
  {
    hide Store.WellFormed, Store.All, Tally, ReasonsOf, Occurrences, HowMany;
    var jobs := Store.All(st.order, st.jobs);
    var failed := (j: Store.Job) => j.failure == Some(r);
    ReasonsAreCounted(jobs, r, failed);
    StoreIsCounted(st, failed);
    assert Those(st, failed) == FailedFor(st, r);
    TallyHas(ReasonsOf(jobs), r);
  }

  lemma ModeHas(jobs: seq<Store.Job>, m: Store.Mode)
    ensures m in Modes(jobs) <==> exists j :: j in jobs && j.mode == m
  {
    if jobs != [] {
      ModeHas(jobs[..|jobs| - 1], m);
      assert jobs == jobs[..|jobs| - 1] + [jobs[|jobs| - 1]];
    }
  }

  lemma ModeCounts(st: Store.Store, m: Store.Mode, s: Store.State)
    requires Store.WellFormed(st)
    ensures var jobs := InMode(Store.All(st.order, st.jobs), m);
      |jobs| == |OfMode(st, m)| && |InState(jobs, s)| == |OfMode(st, m) * InStateIds(st, s)|
  {
    hide Store.WellFormed, Store.All, HowMany, InMode, InState;
    var all := Store.All(st.order, st.jobs);
    var any, ofMode := (j: Store.Job) => true, (j: Store.Job) => j.mode == m;
    var inState, both := (j: Store.Job) => j.state == s, (j: Store.Job) => j.mode == m && j.state == s;
    AllAreCounted(InMode(all, m), any);
    ModeIsCounted(all, m, any, ofMode);
    StoreIsCounted(st, ofMode);
    assert Those(st, ofMode) == OfMode(st, m);
    AllAreCounted(InState(InMode(all, m), s), any);
    StateIsCounted(InMode(all, m), s, any, inState);
    ModeIsCounted(all, m, inState, both);
    StoreIsCounted(st, both);
    assert Those(st, both) == OfMode(st, m) * InStateIds(st, s);
  }

  lemma ModeIsThere(st: Store.Store, m: Store.Mode)
    requires Store.WellFormed(st)
    ensures m in Modes(Store.All(st.order, st.jobs)) <==> OfMode(st, m) != {}
  {
    hide Store.WellFormed, Store.All, HowMany;
    var all := Store.All(st.order, st.jobs);
    var ofMode := (j: Store.Job) => j.mode == m;
    ModeHas(all, m);
    SomeIsCounted(all, ofMode);
    StoreIsCounted(st, ofMode);
    assert Those(st, ofMode) == OfMode(st, m);
  }

  /** The count of each state and of each reason, zero counts left out; and of each mode, by how its jobs ended. */
  lemma CountsAreExact(st: Store.Store, rate: Rate, pool: Pool.Pool, s: Store.State, reason: Store.Reason,
      m: Store.Mode)
    requires Store.WellFormed(st)
    ensures var r := ReportOf(st, rate, pool);
      && At(r.states, s) == |InStateIds(st, s)| && (s in r.states <==> InStateIds(st, s) != {})
      && At(r.failures, reason) == |FailedFor(st, reason)| && (reason in r.failures <==> FailedFor(st, reason) != {})
      && (m in r.byMode <==> OfMode(st, m) != {}) && TotalIn(r, m) == |OfMode(st, m)|
      && SucceededIn(r, m) == |OfMode(st, m) * InStateIds(st, Store.Responded)|
      && FailedIn(r, m) == |OfMode(st, m) * InStateIds(st, Store.Failed)|
  {
    ModeFigures(st, rate, pool, m);
    hide Store.WellFormed, Store.All, Tally, StatesOf, ReasonsOf, TotalIn, SucceededIn, FailedIn;
    hide InMode, InState, Modes;
    StateIsExact(st, s);
    ReasonIsExact(st, reason);
    ModeCounts(st, m, Store.Responded);
    ModeCounts(st, m, Store.Failed);
    ModeIsThere(st, m);
  }

  // ------------------------------------------------------------------ latencies

  /** The records of a mode that have both stamps; of the successful ones only, when asked. */
  ghost function Timed(st: Store.Store, m: Store.Mode, onlyResponded: bool, from: Store.Stamp, upTo: Store.Stamp)
    : set<JobId>
  {
    set id | id in OfMode(st, m) && (onlyResponded ==> st.jobs[id].state.Responded?)
             && from in st.jobs[id].timings && upTo in st.jobs[id].timings
  }

  ghost function TimeBetween(st: Store.Store, id: JobId, from: Store.Stamp, upTo: Store.Stamp): int
  {
    if id in st.jobs && from in st.jobs[id].timings && upTo in st.jobs[id].timings
    then st.jobs[id].timings[upTo] - st.jobs[id].timings[from] else 0
  }

  /** How many of the records took less than `x`. */
  ghost function Quicker(st: Store.Store, ids: set<JobId>, from: Store.Stamp, upTo: Store.Stamp, x: int): set<JobId> {
    set id | id in ids && TimeBetween(st, id, from, upTo) < x
  }

  /** One of the records took exactly `v`, at most `p` percent took less, and more than `p` percent took no longer. */
  ghost predicate PercentileOf(st: Store.Store, ids: set<JobId>, from: Store.Stamp, upTo: Store.Stamp, v: int, p: nat) {
    && (exists id :: id in ids && TimeBetween(st, id, from, upTo) == v)
    && 100 * |Quicker(st, ids, from, upTo, v)| <= p * |ids| < 100 * |Quicker(st, ids, from, upTo, v + 1)|
  }

  /** The summary describes how long the records took from one stamp to the other. */
  ghost predicate Describes(s: Summary, st: Store.Store, ids: set<JobId>, from: Store.Stamp, upTo: Store.Stamp) {
    && s.count == |ids|
    && (ids == {} ==> s == Summary(0, None, None, None, None, None))
    && (ids != {} ==>
          && s.min.Some? && s.p05.Some? && s.p50.Some? && s.p95.Some? && s.max.Some?
          && (exists id :: id in ids && TimeBetween(st, id, from, upTo) == s.min.value)
          && (exists id :: id in ids && TimeBetween(st, id, from, upTo) == s.max.value)
          && (forall id :: id in ids ==> s.min.value <= TimeBetween(st, id, from, upTo) <= s.max.value)
          && PercentileOf(st, ids, from, upTo, s.p05.value, 5)
          && PercentileOf(st, ids, from, upTo, s.p50.value, 50)
          && PercentileOf(st, ids, from, upTo, s.p95.value, 95))
  }

  lemma {:induction false} SamplesAreCounted(jobs: seq<Store.Job>, from: Store.Stamp, upTo: Store.Stamp, x: int,
      p: Store.Job -> bool)
    requires forall j: Store.Job ::
      p(j) <==> Store.Span(j.timings, from, upTo).Some? && Store.Span(j.timings, from, upTo).value < x
    ensures Below(Collected(jobs, from, upTo), x) == HowMany(jobs, p)
  {
    if jobs != [] {
      var init := jobs[..|jobs| - 1];
      SamplesAreCounted(init, from, upTo, x, p);
      var before := Collected(init, from, upTo);
      assert before + [] == before;
      assert Collected(jobs, from, upTo)[..|before|] == before;
    }
  }

  lemma {:induction false} SamplesCount(jobs: seq<Store.Job>, from: Store.Stamp, upTo: Store.Stamp,
      p: Store.Job -> bool)
    requires forall j: Store.Job :: p(j) <==> Store.Span(j.timings, from, upTo).Some?
    ensures |Collected(jobs, from, upTo)| == HowMany(jobs, p)
  {
    if jobs != [] { SamplesCount(jobs[..|jobs| - 1], from, upTo, p); }
  }

  lemma {:induction false} SampleIsCounted(jobs: seq<Store.Job>, from: Store.Stamp, upTo: Store.Stamp, v: int,
      p: Store.Job -> bool)
    requires forall j: Store.Job :: p(j) <==> Store.Span(j.timings, from, upTo) == Some(v)
    ensures v in Collected(jobs, from, upTo) <==> HowMany(jobs, p) > 0
  {
    if jobs != [] { SampleIsCounted(jobs[..|jobs| - 1], from, upTo, v, p); }
  }

  /** The records a latency is taken over. */
  function Sampled(st: Store.Store, m: Store.Mode, onlyResponded: bool): seq<Store.Job> {
    var jobs := InMode(Store.All(st.order, st.jobs), m);
    if onlyResponded then InState(jobs, Store.Responded) else jobs
  }

  predicate IsSampled(j: Store.Job, m: Store.Mode, onlyResponded: bool) {
    j.mode == m && (onlyResponded ==> j.state.Responded?)
  }

  lemma SampledAreCounted(st: Store.Store, m: Store.Mode, onlyResponded: bool, p: Store.Job -> bool,
      q: Store.Job -> bool)
    requires Store.WellFormed(st)
    requires forall j: Store.Job :: q(j) <==> IsSampled(j, m, onlyResponded) && p(j)
    ensures HowMany(Sampled(st, m, onlyResponded), p) == |Those(st, q)|
  {
    hide Store.WellFormed, Store.All, HowMany, InMode, InState;
    var all := Store.All(st.order, st.jobs);
    StoreIsCounted(st, q);
    if onlyResponded {
      var both := (j: Store.Job) => j.state == Store.Responded && p(j);
      StateIsCounted(InMode(all, m), Store.Responded, p, both);
      ModeIsCounted(all, m, both, q);
    } else {
      ModeIsCounted(all, m, p, q);
    }
  }

  /** The samples are how long the records took. */
  ghost predicate Corresponds(values: seq<int>, st: Store.Store, ids: set<JobId>, from: Store.Stamp,
      upTo: Store.Stamp)
  {
    && |values| == |ids|
    && (forall x :: Below(values, x) == |Quicker(st, ids, from, upTo, x)|)
    && (forall v :: v in values <==> exists id :: id in ids && TimeBetween(st, id, from, upTo) == v)
  }

  predicate TookLess(j: Store.Job, from: Store.Stamp, upTo: Store.Stamp, x: int) {
    Store.Span(j.timings, from, upTo).Some? && Store.Span(j.timings, from, upTo).value < x
  }

  predicate Took(j: Store.Job, from: Store.Stamp, upTo: Store.Stamp, v: int) {
    Store.Span(j.timings, from, upTo) == Some(v)
  }

  /** What the report asks of a record, and what the statement says of it. */
  lemma RecordIsTimed(st: Store.Store, m: Store.Mode, onlyResponded: bool, from: Store.Stamp, upTo: Store.Stamp,
      id: JobId)
    requires id in st.jobs
    ensures IsSampled(st.jobs[id], m, onlyResponded) && Store.Span(st.jobs[id].timings, from, upTo).Some?
      <==> id in Timed(st, m, onlyResponded, from, upTo)
  {
  }

  lemma RecordTookLess(st: Store.Store, m: Store.Mode, onlyResponded: bool, from: Store.Stamp, upTo: Store.Stamp,
      id: JobId, x: int)
    requires id in st.jobs
    ensures IsSampled(st.jobs[id], m, onlyResponded) && TookLess(st.jobs[id], from, upTo, x)
      <==> id in Quicker(st, Timed(st, m, onlyResponded, from, upTo), from, upTo, x)
  {
    RecordIsTimed(st, m, onlyResponded, from, upTo, id);
    hide Timed, IsSampled;
  }

  lemma RecordTook(st: Store.Store, m: Store.Mode, onlyResponded: bool, from: Store.Stamp, upTo: Store.Stamp,
      id: JobId, x: int)
    requires id in st.jobs
    ensures IsSampled(st.jobs[id], m, onlyResponded) && Took(st.jobs[id], from, upTo, x)
      <==> id in Timed(st, m, onlyResponded, from, upTo) && TimeBetween(st, id, from, upTo) == x
  {
    RecordIsTimed(st, m, onlyResponded, from, upTo, id);
    hide Timed, IsSampled;
  }

  lemma OnlyRecords(st: Store.Store, m: Store.Mode, onlyResponded: bool, from: Store.Stamp, upTo: Store.Stamp, x: int)
    ensures forall id :: id in Timed(st, m, onlyResponded, from, upTo) ==> id in st.jobs
    ensures forall id :: id in Quicker(st, Timed(st, m, onlyResponded, from, upTo), from, upTo, x) ==> id in st.jobs
  {
  }

  lemma SampleSize(st: Store.Store, m: Store.Mode, onlyResponded: bool, from: Store.Stamp, upTo: Store.Stamp)
    requires Store.WellFormed(st)
    ensures |Collected(Sampled(st, m, onlyResponded), from, upTo)| == |Timed(st, m, onlyResponded, from, upTo)|
  {
    hide Store.WellFormed, Sampled, HowMany, Collected, IsSampled, Timed;
    var p := (j: Store.Job) => Store.Span(j.timings, from, upTo).Some?;
    var q := (j: Store.Job) => IsSampled(j, m, onlyResponded) && p(j);
    SamplesCount(Sampled(st, m, onlyResponded), from, upTo, p);
    SampledAreCounted(st, m, onlyResponded, p, q);
    OnlyRecords(st, m, onlyResponded, from, upTo, 0);
    forall id: JobId ensures id in Those(st, q) <==> id in Timed(st, m, onlyResponded, from, upTo) {
      if id in st.jobs { RecordIsTimed(st, m, onlyResponded, from, upTo, id); }
    }
    assert Those(st, q) == Timed(st, m, onlyResponded, from, upTo);
  }

  lemma SamplesBelow(st: Store.Store, m: Store.Mode, onlyResponded: bool, from: Store.Stamp, upTo: Store.Stamp, x: int)
    requires Store.WellFormed(st)
    ensures Below(Collected(Sampled(st, m, onlyResponded), from, upTo), x)
      == |Quicker(st, Timed(st, m, onlyResponded, from, upTo), from, upTo, x)|
  {
    var p := (j: Store.Job) => TookLess(j, from, upTo, x);
    SamplesAreCounted(Sampled(st, m, onlyResponded), from, upTo, x, p);
    hide Store.WellFormed, Sampled, HowMany, Collected, Below, IsSampled, Timed, Quicker, TookLess;
    var q := (j: Store.Job) => IsSampled(j, m, onlyResponded) && p(j);
    SampledAreCounted(st, m, onlyResponded, p, q);
    OnlyRecords(st, m, onlyResponded, from, upTo, x);
    var quicker := Quicker(st, Timed(st, m, onlyResponded, from, upTo), from, upTo, x);
    forall id: JobId ensures id in Those(st, q) <==> id in quicker {
      if id in st.jobs { RecordTookLess(st, m, onlyResponded, from, upTo, id, x); }
    }
    assert Those(st, q) == quicker;
  }

  lemma SampleTaken(st: Store.Store, m: Store.Mode, onlyResponded: bool, from: Store.Stamp, upTo: Store.Stamp, v: int)
    requires Store.WellFormed(st)
    ensures v in Collected(Sampled(st, m, onlyResponded), from, upTo)
      <==> exists id :: id in Timed(st, m, onlyResponded, from, upTo) && TimeBetween(st, id, from, upTo) == v
  {
    var p := (j: Store.Job) => Took(j, from, upTo, v);
    SampleIsCounted(Sampled(st, m, onlyResponded), from, upTo, v, p);
    hide Store.WellFormed, Sampled, HowMany, Collected, IsSampled, Timed, TimeBetween, Took;
    var q := (j: Store.Job) => IsSampled(j, m, onlyResponded) && p(j);
    SampledAreCounted(st, m, onlyResponded, p, q);
    OnlyRecords(st, m, onlyResponded, from, upTo, v);
    forall id: JobId
      ensures id in Those(st, q)
        <==> id in Timed(st, m, onlyResponded, from, upTo) && TimeBetween(st, id, from, upTo) == v
    {
      if id in st.jobs { RecordTook(st, m, onlyResponded, from, upTo, id, v); }
    }
    hide Those;
    if Those(st, q) != {} {
      var id :| id in Those(st, q);
      assert TimeBetween(st, id, from, upTo) == v;
    }
  }

  lemma SamplesCorrespond(st: Store.Store, m: Store.Mode, onlyResponded: bool, from: Store.Stamp, upTo: Store.Stamp)
    requires Store.WellFormed(st)
    ensures Corresponds(Collected(Sampled(st, m, onlyResponded), from, upTo), st,
                        Timed(st, m, onlyResponded, from, upTo), from, upTo)
  {
    var values, ids := Collected(Sampled(st, m, onlyResponded), from, upTo), Timed(st, m, onlyResponded, from, upTo);
    SampleSize(st, m, onlyResponded, from, upTo);
    hide Store.WellFormed, Sampled, Collected, Below, Quicker;
    forall x ensures Below(values, x) == |Quicker(st, ids, from, upTo, x)| {
      SamplesBelow(st, m, onlyResponded, from, upTo, x);
    }
    forall v ensures v in values <==> exists id :: id in ids && TimeBetween(st, id, from, upTo) == v {
      SampleTaken(st, m, onlyResponded, from, upTo, v);
    }
  }

  lemma PercentileCarries(values: seq<int>, st: Store.Store, ids: set<JobId>, from: Store.Stamp, upTo: Store.Stamp,
      v: int, p: nat)
    requires Corresponds(values, st, ids, from, upTo) && IsPercentile(values, v, p)
    ensures PercentileOf(st, ids, from, upTo, v, p)
  {
    hide Below, Quicker, TimeBetween;
  }

  lemma SummaryDescribes(values: seq<int>, st: Store.Store, ids: set<JobId>, from: Store.Stamp, upTo: Store.Stamp)
    requires Corresponds(values, st, ids, from, upTo)
    ensures Describes(Summarize(values), st, ids, from, upTo)
  {
    hide Below, Quicker, TimeBetween, IsPercentile, PercentileOf;
    if values == [] {
      assert Sort(values) == [];
    } else {
      SummaryIsRanked(values);
      hide Summarize;
      var s := Summarize(values);
      PercentileCarries(values, st, ids, from, upTo, s.p05.value, 5);
      PercentileCarries(values, st, ids, from, upTo, s.p50.value, 50);
      PercentileCarries(values, st, ids, from, upTo, s.p95.value, 95);
      forall id | id in ids ensures TimeBetween(st, id, from, upTo) in values {
      }
    }
  }

  lemma LatencyIsExact(st: Store.Store, m: Store.Mode, onlyResponded: bool, from: Store.Stamp, upTo: Store.Stamp)
    requires Store.WellFormed(st)
    ensures Describes(Summarize(Collected(Sampled(st, m, onlyResponded), from, upTo)), st,
                      Timed(st, m, onlyResponded, from, upTo), from, upTo)
  {
    hide Store.WellFormed, Sampled, Collected, Summarize, Describes, Corresponds;
    SamplesCorrespond(st, m, onlyResponded, from, upTo);
    SummaryDescribes(Collected(Sampled(st, m, onlyResponded), from, upTo), st,
                     Timed(st, m, onlyResponded, from, upTo), from, upTo);
  }

  /**
   * The five latencies of a mode: the lease wait, the signature, the confirmation and the respond of every record of
   * the mode that has the two stamps of that stage, however its job ended, and the total of the successful ones alone.
   */
  lemma LatenciesAreExact(st: Store.Store, rate: Rate, pool: Pool.Pool, m: Store.Mode)
    requires Store.WellFormed(st) && m in ReportOf(st, rate, pool).byMode
    ensures var l := ReportOf(st, rate, pool).byMode[m].latencies;
      && Describes(l.leaseWaitMs, st, Timed(st, m, false, Store.AcceptedAt, Store.LeaseAcquiredAt),
                   Store.AcceptedAt, Store.LeaseAcquiredAt)
      && Describes(l.signatureMs, st, Timed(st, m, false, Store.SignSentAt, Store.SignatureAt),
                   Store.SignSentAt, Store.SignatureAt)
      && Describes(l.confirmationMs, st, Timed(st, m, false, Store.BroadcastAt, Store.ConfirmedAt),
                   Store.BroadcastAt, Store.ConfirmedAt)
      && Describes(l.respondMs, st, Timed(st, m, false, Store.ConfirmedAt, Store.RespondedAt),
                   Store.ConfirmedAt, Store.RespondedAt)
      && Describes(l.totalMs, st, Timed(st, m, true, Store.AcceptedAt, Store.FinishedAt),
                   Store.AcceptedAt, Store.FinishedAt)
  {
    hide Store.WellFormed, Describes, Summarize, Collected, InMode, InState, Store.All, Modes, Timed;
    LatencyIsExact(st, m, false, Store.AcceptedAt, Store.LeaseAcquiredAt);
    LatencyIsExact(st, m, false, Store.SignSentAt, Store.SignatureAt);
    LatencyIsExact(st, m, false, Store.BroadcastAt, Store.ConfirmedAt);
    LatencyIsExact(st, m, false, Store.ConfirmedAt, Store.RespondedAt);
    LatencyIsExact(st, m, true, Store.AcceptedAt, Store.FinishedAt);
  }

  // ------------------------------------------------------------------ the pool

  ghost function BusyPlaces(ws: seq<Pool.Worker>): set<Pool.Place> { set i: Pool.Place | i < |ws| && ws[i].busy }

  ghost function ShortPlaces(ws: seq<Pool.Worker>): set<Pool.Place> {
    set i: Pool.Place | i < |ws| && ws[i].underfunded
  }

  lemma BusyGrows(ws: seq<Pool.Worker>, w: Pool.Worker)
    ensures BusyPlaces(ws + [w]) == if w.busy then BusyPlaces(ws) + {|ws|} else BusyPlaces(ws)
  {
  }

  lemma ShortGrows(ws: seq<Pool.Worker>, w: Pool.Worker)
    ensures ShortPlaces(ws + [w]) == if w.underfunded then ShortPlaces(ws) + {|ws|} else ShortPlaces(ws)
  {
  }

  lemma {:induction false} WorkersAreCounted(ws: seq<Pool.Worker>)
    ensures Pool.Busy(ws) == |BusyPlaces(ws)| && Pool.Underfunded(ws) == |ShortPlaces(ws)|
  {
    if ws != [] {
      var init, last := ws[..|ws| - 1], ws[|ws| - 1];
      WorkersAreCounted(init);
      assert ws == init + [last];
      BusyGrows(init, last);
      ShortGrows(init, last);
      assert |init| !in BusyPlaces(init) && |init| !in ShortPlaces(init);
      hide BusyPlaces, ShortPlaces;
    }
  }

  /** The pool's figures: the places that are leased and the places that are short. */
  lemma PoolIsExact(st: Store.Store, rate: Rate, pool: Pool.Pool)
    ensures var r := ReportOf(st, rate, pool);
      && r.poolSize == |pool.workers| && r.waiting == |pool.waiters|
      && r.busy == |BusyPlaces(pool.workers)| && r.underfunded == |ShortPlaces(pool.workers)|
  {
    WorkersAreCounted(pool.workers);
  }
}
