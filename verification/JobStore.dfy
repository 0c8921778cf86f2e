/**
 * `JobStore` as a class over mutable records, each method proved to do to the heap what the
 * function of the same name in `StoreModel` does to a value.
 */
module JobStore {
  import opened Options
  import opened Sequences
  import StoreModel
  import StoreSafety

  type JobId = StoreModel.JobId

  class JobRecord {
    const mode: StoreModel.Mode
    var state: StoreModel.State
    var failure: Option<StoreModel.Reason>
    var timings: StoreModel.Timings

    constructor (mode: StoreModel.Mode, acceptedAt: int)
      ensures Is(StoreSafety.NewJob(mode, acceptedAt))
    {
      this.mode := mode;
      state, failure, timings := StoreModel.Pending, None, map[StoreModel.AcceptedAt := acceptedAt];
    }

    ghost predicate Is(j: StoreModel.Job)
      reads this
    {
      j == StoreModel.Job(mode, state, failure, timings)
    }
  }

  ghost predicate Hold(records: map<JobId, JobRecord>, values: map<JobId, StoreModel.Job>)
    reads records.Values
  {
    && values.Keys == records.Keys
    && (forall x, y :: x in records && y in records && x != y ==> records[x] != records[y])
    && (forall x :: x in records ==> records[x] in records.Values && records[x].Is(values[x]))
  }

  lemma SetHolds(records: map<JobId, JobRecord>, values: map<JobId, StoreModel.Job>,
      id: JobId, record: JobRecord, j: StoreModel.Job)
    requires Hold(records, values) && record !in records.Values && record.Is(j)
    ensures Hold(records[id := record], values[id := j])
    ensures records[id := record].Values <= records.Values + {record}
  {
  }

  /** What a caller of `view` sees. */
  datatype View = View(job: StoreModel.Job, durations: StoreModel.Durations)

  class JobStore {
    const limits: StoreModel.Limits
    var order: seq<JobId>
    var jobs: map<JobId, JobRecord>
    ghost var model: StoreModel.Store

    ghost predicate Valid()
      reads this, jobs.Values
    {
      && model.order == order
      && StoreModel.WellFormed(model)
      && Records()
    }

    /** The records are separate objects and hold what the model says. */
    ghost predicate Records()
      reads this, jobs.Values
    {
      Hold(jobs, model.jobs)
    }

    constructor (limits: StoreModel.Limits)
      ensures Valid() && this.limits == limits && model == StoreModel.EMPTY && fresh(jobs.Values)
    {
      this.limits := limits;
      order, jobs, model := [], map[], StoreModel.EMPTY;
    }

    lemma RecordAt(i: nat)
      requires Valid() && i < |order|
      ensures order[i] in jobs && order[i] in model.jobs && jobs[order[i]].Is(model.jobs[order[i]])
    {
      assert order[i] in model.order;
    }

    /** The values of the map; the report reads them and keeps none. */
    method All() returns (all: seq<StoreModel.Job>)
      requires Valid()
      ensures all == StoreModel.All(model.order, model.jobs)
    {
      all := [];
      for i := 0 to |order|
        invariant all == StoreModel.All(order[..i], model.jobs)
      {
        RecordAt(i);
        assert order[..i + 1][..i] == order[..i];
        var job := jobs[order[i]];
        all := all + [StoreModel.Job(job.mode, job.state, job.failure, job.timings)];
      }
      assert order[..|order|] == order;
    }

    method ActiveCount() returns (active: nat)
      requires Valid()
      ensures active == |StoreModel.ActiveIds(model)|
    {
      ghost var st := model;
      assert st.order == order && StoreModel.WellFormed(st);
      hide Valid, StoreModel.ActiveIds, StoreModel.WellFormed, ActiveAmong, AwaitingAmong;
      AmongNone(st);
      active := 0;
      for i := 0 to |order|
        invariant active == |ActiveAmong(order[..i], st.jobs)|
      {
        RecordAt(i);
        AmongNext(st, i);
        var job := jobs[order[i]];
        if job.state != StoreModel.Responded && job.state != StoreModel.Failed && job.state != StoreModel.Confirmed {
          active := active + 1;
        }
      }
      assert order[..|order|] == order;
      AmongAll(st);
    }

    method AwaitingRespondCount() returns (waiting: nat)
      requires Valid()
      ensures waiting == |StoreModel.AwaitingIds(model)|
    {
      ghost var st := model;
      assert st.order == order && StoreModel.WellFormed(st);
      hide Valid, StoreModel.AwaitingIds, StoreModel.WellFormed, ActiveAmong, AwaitingAmong;
      AmongNone(st);
      waiting := 0;
      for i := 0 to |order|
        invariant waiting == |AwaitingAmong(order[..i], st.jobs)|
      {
        RecordAt(i);
        AmongNext(st, i);
        if jobs[order[i]].state == StoreModel.Confirmed { waiting := waiting + 1; }
      }
      assert order[..|order|] == order;
      AmongAll(st);
    }

    method LiveCount() returns (live: nat)
      requires Valid()
      ensures live == |StoreModel.LiveIds(model)|
    {
      var active := ActiveCount();
      var waiting := AwaitingRespondCount();
      StoreSafety.CountsAddUp(model);
      live := active + waiting;
    }

    method AtCapacity() returns (full: Option<StoreModel.Ceiling>)
      requires Valid()
      ensures full == StoreModel.AtCapacity(model, limits)
    {
      var active := ActiveCount();
      if active >= limits.maxActive { return Some(StoreModel.Active); }
      var waiting := AwaitingRespondCount();
      if waiting >= limits.maxJobs { return Some(StoreModel.AwaitingRespond); }
      return None;
    }

    /** The ids of the finished records, in insertion order. */
    method FinishedJobs() returns (finished: seq<JobId>)
      requires Valid()
      ensures finished == StoreModel.Finished(model)
    {
      finished := [];
      var i := |order|;
      while i > 0
        invariant 0 <= i <= |order|
        invariant finished == StoreModel.FinishedIn(order[i..], model.jobs)
      {
        i := i - 1;
        assert order[i..][1..] == order[i + 1..];
        var job := jobs[order[i]];
        if job.state == StoreModel.Responded || job.state == StoreModel.Failed {
          finished := [order[i]] + finished;
        }
      }
    }

    function FinishOf(id: JobId): int
      requires id in jobs
      reads this, jobs.Values
    {
      if StoreModel.FinishedAt in jobs[id].timings then jobs[id].timings[StoreModel.FinishedAt] else 0
    }

    method SortByFinish(ids: seq<JobId>) returns (sorted: seq<JobId>)
      requires Records() && forall id :: id in ids ==> id in jobs
      ensures sorted == StoreModel.SortByFinish(model, ids)
    {
      sorted := [];
      for i := 0 to |ids|
        invariant sorted == StoreModel.SortByFinish(model, ids[..i])
        invariant forall id :: id in sorted ==> id in jobs
      {
        assert ids[..i + 1][..i] == ids[..i];
        sorted := Insert(sorted, ids[i]);
      }
      assert ids[..|ids|] == ids;
    }

    lemma FinishIs(id: JobId)
      requires Records() && id in jobs
      ensures FinishOf(id) == StoreModel.KeyOf(model, id)
    {
    }

    /** One step of the search from the back. */
    lemma InsertBefore(sorted: seq<JobId>, id: JobId, k: nat)
      requires 0 < k <= |sorted| && StoreModel.KeyOf(model, sorted[k - 1]) > StoreModel.KeyOf(model, id)
      ensures StoreModel.Insert(model, sorted[..k], id) + sorted[k..]
        == StoreModel.Insert(model, sorted[..k - 1], id) + sorted[k - 1..]
    {
      assert sorted[..k][..k - 1] == sorted[..k - 1];
      assert sorted[k - 1..] == [sorted[k - 1]] + sorted[k..];
    }

    lemma InsertHere(sorted: seq<JobId>, id: JobId, k: nat)
      requires k <= |sorted| && (k > 0 ==> StoreModel.KeyOf(model, sorted[k - 1]) <= StoreModel.KeyOf(model, id))
      ensures StoreModel.Insert(model, sorted[..k], id) == sorted[..k] + [id]
    {
    }

    method Insert(sorted: seq<JobId>, id: JobId) returns (r: seq<JobId>)
      requires Records() && id in jobs && forall x :: x in sorted ==> x in jobs
      ensures r == StoreModel.Insert(model, sorted, id)
      ensures forall x :: x in r ==> x in jobs
    {
      hide Records, StoreModel.KeyOf, FinishOf, StoreModel.Insert;
      var k := |sorted|;
      assert sorted[..k] == sorted && sorted[k..] == [];
      FinishIs(id);
      while k > 0 && FinishOf(sorted[k - 1]) > FinishOf(id)
        invariant 0 <= k <= |sorted|
        invariant StoreModel.Insert(model, sorted, id) == StoreModel.Insert(model, sorted[..k], id) + sorted[k..]
      {
        FinishIs(sorted[k - 1]);
        InsertBefore(sorted, id, k);
        k := k - 1;
      }
      if k > 0 { FinishIs(sorted[k - 1]); }
      InsertHere(sorted, id, k);
      r := sorted[..k] + [id] + sorted[k..];
    }

    /** `jobs.delete` for each of the ids. */
    method Delete(ids: seq<JobId>)
      requires Records() && model.order == order
      modifies this`order, this`jobs, this`model
      ensures Records() && model.order == order && jobs.Values <= old(jobs.Values)
      ensures model == Cut(old(model), ids)
    {
      hide Records;
      KeepAll(order);
      ghost var was := model;
      assert was.jobs - Elements([]) == was.jobs;
      for i := 0 to |ids|
        invariant Records() && model.order == order && jobs.Values <= old(jobs.Values)
        invariant model == Cut(was, ids[..i])
      {
        CutNext(was, ids, i);
        Remove(ids[i]);
      }
      assert ids[..|ids|] == ids;
    }

    method Remove(id: JobId)
      requires Records() && model.order == order
      modifies this`order, this`jobs, this`model
      ensures Records() && model.order == order && jobs.Values <= old(jobs.Values)
      ensures model == StoreModel.Store(StoreModel.Without(old(order), {id}), old(model.jobs) - {id})
    {
      order := StoreModel.Without(order, {id});
      jobs := jobs - {id};
      model := StoreModel.Store(order, model.jobs - {id});
    }

    method Prune()
      requires Valid()
      modifies this`order, this`jobs, this`model
      ensures Valid() && model == StoreModel.Prune(old(model), limits.retained) && jobs.Values <= old(jobs.Values)
    {
      hide Records, StoreModel.WellFormed, StoreModel.Prune, StoreModel.Finished;
      var finished := FinishedJobs();
      FinishedAreRecords();
      if |finished| <= limits.retained {
        PruneIdles(model, limits.retained);
      } else {
        DropOldest(finished);
      }
    }

    /** The sort, the slice and the deletions. */
    method DropOldest(finished: seq<JobId>)
      requires Valid() && finished == StoreModel.Finished(model) && |finished| > limits.retained
      requires forall id :: id in finished ==> id in jobs
      modifies this`order, this`jobs, this`model
      ensures Valid() && model == StoreModel.Prune(old(model), limits.retained) && jobs.Values <= old(jobs.Values)
    {
      hide Records, Cut, StoreModel.WellFormed, StoreModel.Prune, StoreModel.Finished, StoreModel.SortByFinish;
      hide Elements, StoreModel.Without, StoreModel.FinishedIn;
      var sorted := SortByFinish(finished);
      PruneCuts(model, limits.retained, sorted);
      Delete(sorted[..|finished| - limits.retained]);
    }

    lemma FinishedAreRecords()
      requires Valid()
      ensures forall id :: id in StoreModel.Finished(model) ==> id in jobs
    {
    }

    /** `create`; `id` is the UUID drawn for the job and `now` the clock. */
    method Create(id: JobId, mode: StoreModel.Mode, now: int)
      requires Valid()
      modifies this`order, this`jobs, this`model
      ensures Valid() && model == StoreModel.Create(old(model), limits.retained, id, mode, now)
      ensures fresh(jobs.Values - old(jobs.Values))
    {
      hide Records, StoreModel.WellFormed, StoreModel.Prune;
      var job := new JobRecord(mode, now);
      Put(id, job, StoreSafety.NewJob(mode, now));
      Prune();
    }

    /** `jobs.set` with a new record. */
    method Put(id: JobId, job: JobRecord, ghost j: StoreModel.Job)
      requires Valid() && job !in jobs.Values && job.Is(j)
      modifies this`order, this`jobs, this`model
      ensures Valid() && jobs.Values <= old(jobs.Values) + {job}
      ensures model == StoreModel.Store(
        if id in old(model.jobs) then old(order) else old(order) + [id], old(model.jobs)[id := j])
    {
      PutKeeps(id, job, j);
      hide StoreModel.WellFormed, Hold, JobRecord.Is;
      order := if id in jobs then order else order + [id];
      jobs, model := jobs[id := job], StoreModel.Store(order, model.jobs[id := j]);
    }

    lemma PutKeeps(id: JobId, job: JobRecord, j: StoreModel.Job)
      requires Valid() && job !in jobs.Values && job.Is(j)
      ensures id in jobs <==> id in model.jobs
      ensures StoreModel.WellFormed(
        StoreModel.Store(if id in jobs then order else order + [id], model.jobs[id := j]))
      ensures Hold(jobs[id := job], model.jobs[id := j]) && jobs[id := job].Values <= jobs.Values + {job}
    {
      hide StoreModel.WellFormed;
      SetKeepsOrder(model, id, j);
      SetHolds(jobs, model.jobs, id, job, j);
    }

    /** `Object.assign` on a record. */
    method Assign(id: JobId, patch: StoreModel.Patch)
      requires Valid() && id in jobs
      modifies this`model, jobs[id]
      ensures Valid()
      ensures model == old(model).(jobs := old(model).jobs[id := StoreModel.Patched(old(model).jobs[id], patch)])
    {
      SetKeepsOrder(model, id, StoreModel.Patched(model.jobs[id], patch));
      hide StoreModel.WellFormed, StoreModel.KeyOf;
      var job := jobs[id];
      if patch.state.Some? { job.state := patch.state.value; }
      if patch.failure.Some? { job.failure := patch.failure; }
      job.timings := job.timings + patch.timings;
      model := model.(jobs := model.jobs[id := StoreModel.Patched(model.jobs[id], patch)]);
    }

    method Update(id: JobId, patch: StoreModel.Patch)
      requires Valid()
      modifies this`order, this`jobs, this`model, jobs.Values
      ensures Valid() && model == StoreModel.Update(old(model), limits.retained, id, patch)
      ensures jobs.Values <= old(jobs.Values)
    {
      if id !in jobs { return; }
      Assign(id, patch);
      var job := jobs[id];
      if job.state == StoreModel.Responded || job.state == StoreModel.Failed { Prune(); }
    }

    method Fail(id: JobId, reason: StoreModel.Reason, now: int)
      requires Valid()
      modifies this`order, this`jobs, this`model, jobs.Values
      ensures Valid() && model == StoreModel.Fail(old(model), limits.retained, id, reason, now)
      ensures jobs.Values <= old(jobs.Values)
    {
      Update(id, StoreModel.Failure(reason, now));
    }

    method ViewOf(id: JobId) returns (v: Option<View>)
      requires Valid()
      ensures v == if id !in model.jobs then None
        else Some(View(model.jobs[id], StoreModel.DurationsFor(model.jobs[id].timings)))
    {
      if id !in jobs { return None; }
      var job := jobs[id];
      var copy := StoreModel.Job(job.mode, job.state, job.failure, job.timings);
      return Some(View(copy, StoreModel.DurationsFor(job.timings)));
    }
  }

  lemma SetKeepsOrder(st: StoreModel.Store, id: JobId, j: StoreModel.Job)
    requires StoreModel.WellFormed(st)
    ensures StoreModel.WellFormed(
      StoreModel.Store(if id in st.jobs then st.order else st.order + [id], st.jobs[id := j]))
  {
    assert id !in st.jobs ==> id !in st.order;
  }

  ghost function ActiveAmong(ids: seq<JobId>, jobs: map<JobId, StoreModel.Job>): set<JobId> {
    set id | id in ids && id in jobs && StoreModel.IsActive(jobs[id].state)
  }

  ghost function AwaitingAmong(ids: seq<JobId>, jobs: map<JobId, StoreModel.Job>): set<JobId> {
    set id | id in ids && id in jobs && jobs[id].state.Confirmed?
  }

  lemma AmongAll(st: StoreModel.Store)
    requires StoreModel.WellFormed(st)
    ensures ActiveAmong(st.order, st.jobs) == StoreModel.ActiveIds(st)
    ensures AwaitingAmong(st.order, st.jobs) == StoreModel.AwaitingIds(st)
  {
  }

  lemma AmongNone(st: StoreModel.Store)
    ensures ActiveAmong(st.order[..0], st.jobs) == {} && AwaitingAmong(st.order[..0], st.jobs) == {}
  {
  }

  lemma ActiveGrows(ids: seq<JobId>, id: JobId, jobs: map<JobId, StoreModel.Job>)
    requires id !in ids && id in jobs
    ensures |ActiveAmong(ids + [id], jobs)|
      == |ActiveAmong(ids, jobs)| + (if StoreModel.IsActive(jobs[id].state) then 1 else 0)
  {
    assert ActiveAmong(ids + [id], jobs)
      == if StoreModel.IsActive(jobs[id].state) then ActiveAmong(ids, jobs) + {id} else ActiveAmong(ids, jobs);
  }

  lemma AwaitingGrows(ids: seq<JobId>, id: JobId, jobs: map<JobId, StoreModel.Job>)
    requires id !in ids && id in jobs
    ensures |AwaitingAmong(ids + [id], jobs)|
      == |AwaitingAmong(ids, jobs)| + (if jobs[id].state.Confirmed? then 1 else 0)
  {
    assert AwaitingAmong(ids + [id], jobs)
      == if jobs[id].state.Confirmed? then AwaitingAmong(ids, jobs) + {id} else AwaitingAmong(ids, jobs);
  }

  lemma AmongNext(st: StoreModel.Store, i: nat)
    requires StoreModel.WellFormed(st) && i < |st.order| && st.order[i] in st.jobs
    ensures var id := st.order[i];
      && |ActiveAmong(st.order[..i + 1], st.jobs)|
         == |ActiveAmong(st.order[..i], st.jobs)| + (if StoreModel.IsActive(st.jobs[id].state) then 1 else 0)
      && |AwaitingAmong(st.order[..i + 1], st.jobs)|
         == |AwaitingAmong(st.order[..i], st.jobs)| + (if st.jobs[id].state.Confirmed? then 1 else 0)
  {
    hide ActiveAmong, AwaitingAmong;
    assert st.order[..i + 1] == st.order[..i] + [st.order[i]];
    assert st.order[i] !in st.order[..i];
    ActiveGrows(st.order[..i], st.order[i], st.jobs);
    AwaitingGrows(st.order[..i], st.order[i], st.jobs);
  }

  lemma PruneCuts(st: StoreModel.Store, retained: nat, sorted: seq<JobId>)
    requires StoreModel.WellFormed(st) && |sorted| > retained
    requires sorted == StoreModel.SortByFinish(st, StoreModel.Finished(st))
    ensures StoreModel.Prune(st, retained) == Cut(st, sorted[..|sorted| - retained])
    ensures StoreModel.WellFormed(StoreModel.Prune(st, retained))
  {
    hide StoreModel.SortByFinish, StoreModel.Finished, StoreModel.Without, Elements, StoreModel.WellFormed;
    StoreSafety.PruneKeeps(st, retained);
  }

  lemma PruneIdles(st: StoreModel.Store, retained: nat)
    requires StoreModel.WellFormed(st) && |StoreModel.Finished(st)| <= retained
    ensures StoreModel.Prune(st, retained) == st
  {
    hide StoreModel.SortByFinish, StoreModel.Finished, StoreModel.Without, Elements;
    StoreSafety.CutKeeps(st, {});
  }

  /** The store after some ids have been deleted one by one. */
  ghost function Cut(st: StoreModel.Store, ids: seq<JobId>): StoreModel.Store {
    StoreModel.Store(StoreModel.Without(st.order, Elements(ids)), st.jobs - Elements(ids))
  }

  lemma CutNext(st: StoreModel.Store, ids: seq<JobId>, i: nat)
    requires i < |ids|
    ensures Cut(st, ids[..i + 1])
      == StoreModel.Store(StoreModel.Without(Cut(st, ids[..i]).order, {ids[i]}), Cut(st, ids[..i]).jobs - {ids[i]})
  {
    var gone := Elements(ids[..i]);
    assert ids[..i + 1] == ids[..i] + [ids[i]];
    assert Elements(ids[..i + 1]) == gone + {ids[i]};
    WithoutBoth(st.order, gone, {ids[i]});
    assert st.jobs - gone - {ids[i]} == st.jobs - (gone + {ids[i]});
  }

  lemma {:induction false} KeepAll(order: seq<JobId>)
    ensures StoreModel.Without(order, Elements([])) == order
  {
    if order != [] { KeepAll(order[1..]); }
  }

  lemma {:induction false} WithoutBoth(order: seq<JobId>, a: set<JobId>, b: set<JobId>)
    ensures StoreModel.Without(StoreModel.Without(order, a), b) == StoreModel.Without(order, a + b)
  {
    if order != [] {
      WithoutBoth(order[1..], a, b);
      var rest := StoreModel.Without(order[1..], a);
      assert ([order[0]] + rest)[1..] == rest;
      assert [] + rest == rest;
    }
  }
}
