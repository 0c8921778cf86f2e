/**
 * `WorkerPool` as the service runs it: worker objects updated in place and a queue of waiting
 * promises. `model` is the same pool as a value; every method is proved to change it by the
 * operation of the same name in `PoolModel`.
 */
module WorkerPool {
  import opened Options
  import opened Sequences
  import PoolModel

  type Ticket = PoolModel.Ticket

  class Worker {
    const path: string
    var busy: bool
    var underfunded: bool
    var pendingNonce: Option<nat>
    var balanceWei: nat
    var leases: nat

    constructor (path: string)
      ensures this.path == path && Is(PoolModel.IDLE)
    {
      this.path := path;
      busy, underfunded, pendingNonce, balanceWei, leases := false, false, None, 0, 0;
    }

    ghost predicate Is(w: PoolModel.Worker)
      reads this
    {
      && busy == w.busy && underfunded == w.underfunded && pendingNonce == w.pendingNonce
      && balanceWei == w.balanceWei && leases == w.leases
    }
  }

  datatype Acquired = Leased(at: nat) | Unavailable(reason: PoolModel.Reason)

  class WorkerPool {
    const workers: seq<Worker>
    var waiters: seq<Ticket>
    var timers: set<Ticket>
    var next: Ticket
    var settled: map<Ticket, PoolModel.Outcome>
    ghost var model: PoolModel.Pool

    ghost predicate SameWorkers()
      reads this, workers
    {
      && Distinct(workers)
      && |model.workers| == |workers|
      && (forall i :: 0 <= i < |workers| ==> workers[i].Is(model.workers[i]))
    }

    /** A lease timer is armed for each queued promise, and for no other. */
    ghost predicate SameQueue()
      reads this
    {
      && waiters == model.waiters && next == model.next && settled == model.settled
      && timers == set t | t in waiters
    }

    ghost predicate Valid()
      reads this, workers
    {
      SameWorkers() && SameQueue() && PoolModel.WellFormed(model)
    }

    /** The place of the worker `find` returns for `path`; past the end when there is none. */
    ghost function PlaceOf(path: string): (i: PoolModel.Place)
      ensures i <= |workers|
      ensures i < |workers| ==> workers[i].path == path
      ensures forall k :: 0 <= k < i ==> workers[k].path != path
    {
      FirstWith(workers, path, 0)
    }

    static ghost function FirstWith(ws: seq<Worker>, path: string, from: nat): (i: nat)
      requires from <= |ws|
      ensures from <= i <= |ws| && (i < |ws| ==> ws[i].path == path)
      ensures forall k :: from <= k < i ==> ws[k].path != path
      decreases |ws| - from
    {
      if from == |ws| || ws[from].path == path then from else FirstWith(ws, path, from + 1)
    }

    /** With distinct paths a leased worker is found again by its own path. */
    lemma FoundAgain(i: nat)
      requires i < |workers| && forall a, b :: 0 <= a < b < |workers| ==> workers[a].path != workers[b].path
      ensures PlaceOf(workers[i].path) == i
    {}

    constructor (paths: seq<string>)
      ensures Valid() && model == PoolModel.Fresh(|paths|)
      ensures forall i :: 0 <= i < |paths| ==> workers[i].path == paths[i]
      ensures fresh(workers)
    {
      var ws: seq<Worker> := [];
      for i := 0 to |paths|
        invariant |ws| == i && fresh(ws) && Distinct(ws)
        invariant forall k :: 0 <= k < i ==> ws[k].path == paths[k] && ws[k].Is(PoolModel.IDLE)
      {
        var w := new Worker(paths[i]);
        ws := ws + [w];
      }
      workers := ws;
      waiters, timers, next, settled := [], {}, 0, map[];
      model := PoolModel.Fresh(|paths|);
    }

    method Find(path: string) returns (i: nat)
      ensures i == PlaceOf(path)
    {
      i := 0;
      while i < |workers| && workers[i].path != path
        invariant 0 <= i <= |workers|
        invariant forall k :: 0 <= k < i ==> workers[k].path != path
      {
        i := i + 1;
      }
    }

    method SetBalance(path: string, balanceWei: nat, minBalanceWei: nat)
      requires Valid()
      modifies this`model, workers
      ensures Valid() && model == PoolModel.SetBalance(old(model), PlaceOf(path), balanceWei, minBalanceWei)
    {
      hide PoolModel.WellFormedBut;
      PoolModel.ApplyKeeps(model, PoolModel.Rebalance(PlaceOf(path), balanceWei, minBalanceWei));
      var i := Find(path);
      if i == |workers| { return; }
      workers[i].balanceWei := balanceWei;
      workers[i].underfunded := balanceWei < minBalanceWei;
      model := PoolModel.SetBalance(model, i, balanceWei, minBalanceWei);
    }

    /** The index `find` stops at when it looks for an idle, funded, unquarantined worker. */
    method FindEligible() returns (i: nat)
      requires SameWorkers()
      ensures i <= |workers|
      ensures PoolModel.Available(model) == if i < |workers| then Some(i) else None
    {
      i := 0;
      while i < |workers| && !(!workers[i].busy && !workers[i].underfunded && workers[i].pendingNonce.None?)
        invariant 0 <= i <= |workers|
        invariant forall k :: 0 <= k < i ==> !model.workers[k].Eligible()
      {
        i := i + 1;
      }
    }

    /** The reason `acquire` throws with: whether some funded worker is occupied. */
    method WhyNot() returns (reason: PoolModel.Reason)
      requires SameWorkers()
      ensures reason == PoolModel.Refusal(model)
    {
      for i := 0 to |workers|
        invariant forall k :: 0 <= k < i ==> !model.workers[k].WillFreeUp()
      {
        if !workers[i].underfunded && (workers[i].busy || workers[i].pendingNonce.Some?) {
          assert model.workers[i].WillFreeUp();
          return PoolModel.AllBusy;
        }
      }
      return PoolModel.AllUnderfunded;
    }

    /** `acquire`, called on behalf of the promise `t`, which the caller settles. */
    method Acquire(ghost t: Ticket) returns (r: Acquired)
      requires SameWorkers()
      modifies this`model, workers
      ensures SameWorkers()
      ensures match PoolModel.Available(old(model))
        case None => r == Unavailable(PoolModel.Refusal(old(model))) && model == old(model)
        case Some(at) => r == Leased(at) && model == PoolModel.Take(old(model), at, t)
    {
      var i := FindEligible();
      if i == |workers| {
        var reason := WhyNot();
        return Unavailable(reason);
      }
      var candidate := workers[i];
      candidate.busy := true;
      candidate.leases := candidate.leases + 1;
      model := PoolModel.Take(model, i, t);
      return Leased(i);
    }

    /** Returns the promise; its timer is armed while it is queued. */
    method AcquireWithin() returns (t: Ticket)
      requires Valid()
      modifies this, workers
      ensures Valid() && model == PoolModel.AcquireWithin(old(model)) && t == old(next)
    {
      hide PoolModel.WellFormedBut;
      PoolModel.AcquireKeeps(model);
      t := next;
      var got := Acquire(t);
      next := next + 1;
      match got {
        case Leased(at) =>
          settled := settled[t := PoolModel.Granted(at)];
        case Unavailable(reason) =>
          if reason == PoolModel.AllBusy {
            Enqueue(t);
          } else {
            settled := settled[t := PoolModel.Refused(reason)];
          }
      }
      assert PoolModel.AcquireWithin(old(model)).workers == model.workers;
      model := PoolModel.AcquireWithin(old(model));
    }

    method Enqueue(t: Ticket)
      requires timers == set u | u in waiters
      modifies this`timers, this`waiters
      ensures waiters == old(waiters) + [t] && timers == set u | u in waiters
    {
      timers := timers + {t};
      waiters := waiters + [t];
    }

    method Release(path: string)
      requires Valid()
      modifies this, workers
      ensures Valid() && model == PoolModel.Release(old(model), PlaceOf(path))
    {
      PoolModel.FreeKeeps(model, PlaceOf(path));
      var i := Find(path);
      if i < |workers| {
        workers[i].busy := false;
        model := PoolModel.Free(model, i);
      }
      HandOff();
    }

    method HandOff()
      requires Valid()
      modifies this, workers
      ensures Valid() && model == PoolModel.HandOff(old(model))
    {
      while |waiters| > 0
        invariant Valid()
        invariant PoolModel.HandOff(model) == PoolModel.HandOff(old(model))
        decreases |waiters|
      {
        var served := ServeFirst();
        if !served { return; }
      }
    }

    /** One round of `handOff`: false when nothing is available and the waiters stay queued. */
    method ServeFirst() returns (served: bool)
      requires Valid() && |waiters| > 0
      modifies this, workers
      ensures Valid() && PoolModel.HandOff(model) == PoolModel.HandOff(old(model))
      ensures served ==> |waiters| < old(|waiters|)
      ensures !served ==> model == PoolModel.HandOff(model)
    {
      var t := waiters[0];
      ghost var popped := model.(waiters := model.waiters[1..]);
      PoolModel.PopKeeps(model);
      var got := Acquire(t);
      match got
      case Unavailable(_) => served := false;
      case Leased(at) =>
        PoolModel.LeaseKeeps(popped, at, t);
        assert forall u :: u in waiters <==> u == t || u in waiters[1..];
        timers := timers - {t};
        waiters := waiters[1..];
        settled := settled[t := PoolModel.Granted(at)];
        model := PoolModel.Lease(popped, at, t);
        served := true;
    }

    /** The callback of `setTimeout`; it can fire only while the timer is armed. */
    method OnTimer(t: Ticket)
      requires Valid() && t in timers
      modifies this
      ensures Valid() && model == PoolModel.Timeout(old(model), t)
    {
      PoolModel.TimeoutKeeps(model, t);
      Dequeue(t);
      settled := settled[t := PoolModel.Refused(PoolModel.AllBusy)];
      model := PoolModel.Timeout(model, t);
    }

    method Dequeue(t: Ticket)
      requires PoolModel.Increasing(waiters) && timers == set u | u in waiters
      modifies this`waiters, this`timers
      ensures waiters == PoolModel.Without(old(waiters), t) && timers == set u | u in waiters
    {
      PoolModel.WithoutIs(waiters, t);
      var i := IndexOfWaiter(t);
      if i < |waiters| {
        waiters := waiters[..i] + waiters[i + 1..];
      }
      timers := timers - {t};
    }

    method IndexOfWaiter(t: Ticket) returns (i: nat)
      ensures i == PoolModel.IndexOf(waiters, t)
    {
      i := 0;
      while i < |waiters| && waiters[i] != t
        invariant 0 <= i <= |waiters|
        invariant t !in waiters[..i]
      {
        i := i + 1;
      }
      assert i == |waiters| ==> waiters[..i] == waiters;
      if i < |waiters| {
        FirstIndex(waiters, t, i);
      }
    }

    static lemma FirstIndex(s: seq<Ticket>, t: Ticket, i: nat)
      requires i < |s| && s[i] == t && t !in s[..i]
      ensures PoolModel.IndexOf(s, t) == i
    {
      var k := PoolModel.IndexOf(s, t);
      assert forall j :: 0 <= j < k ==> s[j] in s[..k];
      assert forall j :: 0 <= j < i ==> s[j] in s[..i];
    }

    method RejectWaiters()
      requires Valid()
      modifies this
      ensures Valid() && model == PoolModel.RejectWaiters(old(model))
    {
      PoolModel.ApplyKeeps(model, PoolModel.RejectAll);
      DrainQueue();
      model := PoolModel.RejectWaiters(model);
    }

    method DrainQueue()
      requires forall t :: t in timers ==> t in waiters
      modifies this`waiters, this`timers, this`settled
      ensures waiters == [] && timers == {}
      ensures settled == old(settled) + map t | t in old(waiters) :: PoolModel.Abandoned
    {
      ghost var done: seq<Ticket> := [];
      while |waiters| > 0
        invariant done + waiters == old(waiters)
        invariant settled == old(settled) + map t | t in done :: PoolModel.Abandoned
        invariant forall t :: t in timers ==> t in waiters
        decreases |waiters|
      {
        var t := waiters[0];
        timers := timers - {t};
        settled := settled[t := PoolModel.Abandoned];
        waiters := waiters[1..];
        done := done + [t];
      }
      assert done == old(waiters);
    }

    method Quarantine(path: string, nonce: nat)
      requires Valid()
      modifies this`model, workers
      ensures Valid() && model == PoolModel.Quarantine(old(model), PlaceOf(path), nonce)
    {
      PoolModel.ApplyKeeps(model, PoolModel.Withhold(PlaceOf(path), nonce));
      var i := Find(path);
      if i < |workers| {
        workers[i].pendingNonce := Some(nonce);
        model := PoolModel.Quarantine(model, i, nonce);
      }
    }

    method Reconcile(path: string, hasOutstanding: bool)
      requires Valid()
      modifies this`model, workers
      ensures Valid() && model == PoolModel.Reconcile(old(model), PlaceOf(path), hasOutstanding)
    {
      hide PoolModel.WellFormedBut;
      PoolModel.ApplyKeeps(model, PoolModel.Judge(PlaceOf(path), hasOutstanding));
      var i := Find(path);
      if i < |workers| && workers[i].pendingNonce.Some? && !hasOutstanding {
        workers[i].pendingNonce := None;
        model := PoolModel.Reconcile(model, i, hasOutstanding);
      }
    }

    /** The snapshot `reconcileQuarantined` walks. */
    method QuarantinedPlaces() returns (r: seq<nat>)
      requires Valid()
      ensures r == PoolModel.Quarantined(model.workers, 0)
    {
      r := [];
      var i := |workers|;
      while i > 0
        invariant 0 <= i <= |workers|
        invariant r == PoolModel.Quarantined(model.workers, i)
      {
        i := i - 1;
        r := (if workers[i].pendingNonce.Some? then [i] else []) + r;
      }
    }
  }

  // ------------------------------------------------------------------ derivation paths

  /** The decimal digits of `n`, as a template literal prints it. */
  function Decimal(n: nat): (s: string)
    ensures |s| > 0
  {
    var digit := [('0' as int + n % 10) as char];
    if n < 10 then digit else Decimal(n / 10) + digit
  }

  function BuildPaths(prefix: string, count: nat): (r: seq<string>)
    ensures |r| == count
  {
    seq(count, i requires 0 <= i < count => prefix + "-" + Decimal(i))
  }

  lemma {:induction false} DecimalInjective(m: nat, n: nat)
    requires Decimal(m) == Decimal(n)
    ensures m == n
  {
    var a, b := Decimal(m), Decimal(n);
    assert a[|a| - 1] == ('0' as int + m % 10) as char && b[|b| - 1] == ('0' as int + n % 10) as char;
    assert m >= 10 <==> |a| > 1;
    assert n >= 10 <==> |b| > 1;
    if m >= 10 {
      assert a[..|a| - 1] == Decimal(m / 10) && b[..|b| - 1] == Decimal(n / 10);
      DecimalInjective(m / 10, n / 10);
    }
  }

  /** No two workers share a path, so looking a worker up by path finds the one that was leased. */
  lemma PathsDistinct(prefix: string, count: nat)
    ensures Distinct(BuildPaths(prefix, count))
  {
    var r := BuildPaths(prefix, count);
    forall i, j | 0 <= i < j < |r| ensures r[i] != r[j] {
      if r[i] == r[j] {
        var stem := prefix + "-";
        assert r[i][|stem|..] == Decimal(i) && r[j][|stem|..] == Decimal(j);
        DecimalInjective(i, j);
      }
    }
  }

  // ------------------------------------------------------------------ what the digits say

  predicate IsDigits(s: string) { forall i :: 0 <= i < |s| ==> '0' <= s[i] <= '9' }

  /** The number that a row of digits stands for. */
  function Value(s: string): nat
    requires IsDigits(s)
  {
    if s == [] then 0 else 10 * Value(s[..|s| - 1]) + (s[|s| - 1] as int - '0' as int)
  }

  /** A numeral is the number's digits, without a leading zero. */
  ghost predicate IsNumeral(s: string, n: nat) {
    IsDigits(s) && Value(s) == n && |s| > 0 && (|s| > 1 ==> s[0] != '0')
  }

  lemma {:induction false} DecimalIsNumeral(n: nat)
    ensures IsNumeral(Decimal(n), n)
  {
    var digit := ('0' as int + n % 10) as char;
    if n < 10 {
      assert Value([]) == 0 && [digit][..0] == [];
    } else {
      var rest := Decimal(n / 10);
      DecimalIsNumeral(n / 10);
      assert (rest + [digit])[..|rest|] == rest;
      if |rest| == 1 { assert rest[..0] == [] && Value(rest) == rest[0] as int - '0' as int; }
    }
  }

  /** The `i`-th path, counted from 0, is the prefix, a dash and the number `i`. */
  lemma PathsAreNumbered(prefix: string, count: nat, i: nat)
    requires i < count
    ensures |BuildPaths(prefix, count)| == count
    ensures var path, stem := BuildPaths(prefix, count)[i], prefix + "-";
      |path| > |stem| && path[..|stem|] == stem && IsNumeral(path[|stem|..], i)
  {
    DecimalIsNumeral(i);
    assert BuildPaths(prefix, count)[i][|prefix + "-"|..] == Decimal(i);
  }
}
