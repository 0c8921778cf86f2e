/**
 * The address pool as a value, one function per operation of `WorkerPool`.
 *
 * A promise returned by `acquireWithin` is a ticket, numbered in order of arrival; `settled`
 * records how each promise ended. Three fields are bookkeeping that the service does not
 * store: `grants` (the order in which leases were handed out), a worker's `lessee` (the
 * ticket that holds it) and its `epoch` (how often it was quarantined).
 */
module PoolModel {
  import opened Integers
  import opened Options
  import opened Sequences

  type Ticket = nat

  /** A worker's place in the pool. A path that no worker has stands for a place past the end. */
  type Place = nat

  datatype Reason = AllBusy | AllUnderfunded

  datatype Outcome = Granted(at: Place) | Refused(reason: Reason) | Abandoned

  datatype Worker = Worker(
    busy: bool,
    underfunded: bool,
    pendingNonce: Option<nat>,
    balanceWei: nat,
    leases: nat,
    lessee: Option<Ticket>,
    epoch: nat)
  {
    predicate Eligible() { !busy && !underfunded && pendingNonce.None? }

    predicate WillFreeUp() { !underfunded && (busy || pendingNonce.Some?) }
  }

  datatype Pool = Pool(
    workers: seq<Worker>,
    waiters: seq<Ticket>,
    next: Ticket,
    settled: map<Ticket, Outcome>,
    grants: seq<Ticket>)

  const IDLE := Worker(false, false, None, 0, 0, None, 0)

  ghost predicate Increasing(s: seq<nat>) {
    forall i, j :: 0 <= i < j < |s| ==> s[i] < s[j]
  }

  /** How many workers are leased. */
  function Busy(ws: seq<Worker>): nat {
    if ws == [] then 0 else Busy(ws[..|ws| - 1]) + (if ws[|ws| - 1].busy then 1 else 0)
  }

  /** How many workers are short of funds. */
  function Underfunded(ws: seq<Worker>): nat {
    if ws == [] then 0 else Underfunded(ws[..|ws| - 1]) + (if ws[|ws| - 1].underfunded then 1 else 0)
  }

  // ------------------------------------------------------------------ operations

  function Fresh(size: nat): Pool {
    Pool(seq(size, _ => IDLE), [], 0, map[], [])
  }

  function SetBalance(p: Pool, at: Place, balance: nat, minimum: nat): Pool {
    if at >= |p.workers| then p
    else p.(workers := p.workers[at := p.workers[at].(balanceWei := balance, underfunded := balance < minimum)])
  }

  /** The first worker, from place `from` on, that `acquire` may hand out. */
  function FirstEligible(ws: seq<Worker>, from: Place): (r: Option<Place>)
    requires from <= |ws|
    ensures r.Some? ==> from <= r.value < |ws| && ws[r.value].Eligible()
    ensures r.None? ==> forall i :: from <= i < |ws| ==> !ws[i].Eligible()
    ensures r.Some? ==> forall i :: from <= i < r.value ==> !ws[i].Eligible()
    decreases |ws| - from
  {
    if from == |ws| then None
    else if ws[from].Eligible() then Some(from)
    else FirstEligible(ws, from + 1)
  }

  function Available(p: Pool): Option<Place> { FirstEligible(p.workers, 0) }

  function Refusal(p: Pool): Reason {
    if exists i | 0 <= i < |p.workers| :: p.workers[i].WillFreeUp() then AllBusy else AllUnderfunded
  }

  /** `acquire` picked the worker at `at` on behalf of promise `t`. */
  function Take(p: Pool, at: Place, t: Ticket): Pool
    requires at < |p.workers|
  {
    var w := p.workers[at];
    p.(workers := p.workers[at := w.(busy := true, leases := w.leases + 1, lessee := Some(t))])
  }

  /** ... and the promise resolved with it. */
  function Lease(p: Pool, at: Place, t: Ticket): Pool
    requires at < |p.workers|
  {
    Take(p, at, t).(settled := p.settled[t := Granted(at)], grants := p.grants + [t])
  }

  /** One call of `acquireWithin`; its promise is ticket `p.next`. */
  function AcquireWithin(p: Pool): Pool {
    var t := p.next;
    var q := p.(next := t + 1);
    match Available(p)
    case Some(at) => Lease(q, at, t)
    case None =>
      if Refusal(p) == AllBusy then q.(waiters := q.waiters + [t])
      else q.(settled := q.settled[t := Refused(AllUnderfunded)])
  }

  function HandOff(p: Pool): Pool
    decreases |p.waiters|
  {
    if p.waiters == [] then p
    else match Available(p)
      case None => p
      case Some(at) => HandOff(Lease(p.(waiters := p.waiters[1..]), at, p.waiters[0]))
  }

  function Free(p: Pool, at: Place): Pool {
    if at >= |p.workers| then p
    else p.(workers := p.workers[at := p.workers[at].(busy := false, lessee := None)])
  }

  function Release(p: Pool, at: Place): Pool { HandOff(Free(p, at)) }

  function IndexOf<T(==)>(s: seq<T>, x: T): (i: nat)
    ensures i <= |s|
    ensures i < |s| ==> s[i] == x
    ensures x !in s[..i]
    ensures i == |s| ==> x !in s
  {
    if s == [] || s[0] == x then 0 else
      var i := 1 + IndexOf(s[1..], x);
      assert s[..i] == [s[0]] + s[1..][..i - 1];
      i
  }

  /** The queue after `splice(indexOf(t), 1)`; unchanged when `t` is not there. */
  function Without(s: seq<Ticket>, t: Ticket): seq<Ticket> {
    var i := IndexOf(s, t);
    if i < |s| then s[..i] + s[i + 1..] else s
  }

  /** The lease timer of `t` fires. */
  function Timeout(p: Pool, t: Ticket): Pool {
    p.(waiters := Without(p.waiters, t), settled := p.settled[t := Refused(AllBusy)])
  }

  function RejectWaiters(p: Pool): Pool {
    p.(waiters := [], settled := p.settled + map t | t in p.waiters :: Abandoned)
  }

  function Quarantine(p: Pool, at: Place, nonce: nat): Pool {
    if at >= |p.workers| then p
    else
      var w := p.workers[at];
      p.(workers := p.workers[at := w.(pendingNonce := Some(nonce), epoch := w.epoch + 1)])
  }

  function Reconcile(p: Pool, at: Place, hasOutstanding: bool): Pool {
    if at < |p.workers| && p.workers[at].pendingNonce.Some? && !hasOutstanding
    then p.(workers := p.workers[at := p.workers[at].(pendingNonce := None)])
    else p
  }

  /** The quarantined workers, in place order. */
  function Quarantined(ws: seq<Worker>, from: Place): (r: seq<Place>)
    requires from <= |ws|
    ensures forall i :: i in r <==> from <= i < |ws| && ws[i].pendingNonce.Some?
    decreases |ws| - from
  {
    if from == |ws| then []
    else (if ws[from].pendingNonce.Some? then [from] else []) + Quarantined(ws, from + 1)
  }

  // ------------------------------------------------------------------ what every operation keeps

  /** Every arrival is either queued or settled, never both; a busy worker has exactly one lessee. */
  ghost predicate WellFormed(p: Pool) { WellFormedBut(p, {}) }

  /** `WellFormed`, except that the tickets in `open` are neither queued nor settled yet. */
  ghost predicate WellFormedBut(p: Pool, open: set<Ticket>) {
    && (forall i | 0 <= i < |p.workers| :: p.workers[i].busy <==> p.workers[i].lessee.Some?)
    && (forall i | 0 <= i < |p.workers| && p.workers[i].lessee.Some? ::
          var t := p.workers[i].lessee.value; t in p.settled && p.settled[t] == Granted(i))
    && Increasing(p.waiters)
    && (forall t :: t in p.waiters || t in p.settled || t in open ==> t < p.next)
    && (forall t :: t in open ==> t !in p.waiters && t !in p.settled)
    && (forall t: Ticket :: t < p.next && t !in open ==> (t in p.waiters <==> t !in p.settled))
    && Distinct(p.grants)
    && (forall t :: t in p.grants <==> t in p.settled && p.settled[t].Granted?)
  }

  datatype Op =
    | Arrive
    | Give(at: Place)
    | Timer(t: Ticket)
    | RejectAll
    | Withhold(at: Place, nonce: nat)
    | Judge(at: Place, hasOutstanding: bool)
    | Rebalance(at: Place, balance: nat, minimum: nat)

  /** A timer is armed exactly while its ticket is queued; every other call is always allowed. */
  predicate Allowed(p: Pool, op: Op) { op.Timer? ==> op.t in p.waiters }

  function Apply(p: Pool, op: Op): Pool {
    match op
    case Arrive => AcquireWithin(p)
    case Give(at) => Release(p, at)
    case Timer(t) => Timeout(p, t)
    case RejectAll => RejectWaiters(p)
    case Withhold(at, nonce) => Quarantine(p, at, nonce)
    case Judge(at, hasOutstanding) => Reconcile(p, at, hasOutstanding)
    case Rebalance(at, balance, minimum) => SetBalance(p, at, balance, minimum)
  }

  lemma WithoutIs(s: seq<Ticket>, t: Ticket)
    requires Increasing(s)
    ensures Increasing(Without(s, t))
    ensures forall u :: u in Without(s, t) <==> u in s && u != t
  {
    var i := IndexOf(s, t);
    var r := Without(s, t);
    forall u ensures u in r <==> u in s && u != t {
      if u in s && u != t {
        var k :| 0 <= k < |s| && s[k] == u;
        assert u == if k < i then r[k] else r[k - 1];
      }
    }
  }

  /** Handing an eligible worker to a ticket nobody has settled keeps the pool well formed. */
  lemma LeaseKeeps(p: Pool, at: Place, t: Ticket)
    requires WellFormedBut(p, {t})
    requires at < |p.workers| && p.workers[at].Eligible()
    ensures WellFormed(Lease(p, at, t))
  {
    assert t !in p.grants;
    var r := Lease(p, at, t);
    assert forall u :: u in r.grants <==> u in p.grants || u == t;
  }

  lemma PopKeeps(p: Pool)
    requires WellFormed(p) && p.waiters != []
    ensures WellFormedBut(p.(waiters := p.waiters[1..]), {p.waiters[0]})
  {
    assert forall u :: u in p.waiters <==> u == p.waiters[0] || u in p.waiters[1..];
    assert forall u :: u in p.waiters[1..] ==> p.waiters[0] < u;
  }

  lemma {:induction false} HandOffKeeps(p: Pool)
    requires WellFormed(p)
    ensures WellFormed(HandOff(p))
    decreases |p.waiters|
  {
    if p.waiters != [] && Available(p).Some? {
      PopKeeps(p);
      LeaseKeeps(p.(waiters := p.waiters[1..]), Available(p).value, p.waiters[0]);
      HandOffKeeps(Lease(p.(waiters := p.waiters[1..]), Available(p).value, p.waiters[0]));
    }
  }

  /** The newest ticket joins the back of the queue. */
  lemma EnqueueKeeps(p: Pool, t: Ticket)
    requires WellFormedBut(p, {t}) && t + 1 == p.next
    ensures WellFormed(p.(waiters := p.waiters + [t]))
  {
    var r := p.waiters + [t];
    assert t !in p.waiters;
    assert forall i :: 0 <= i < |p.waiters| ==> p.waiters[i] in p.waiters;
    assert forall u :: u in r <==> u in p.waiters || u == t;
  }

  lemma AcquireKeeps(p: Pool)
    requires WellFormed(p)
    ensures WellFormed(AcquireWithin(p))
  {
    match Available(p)
    case Some(at) => LeaseKeeps(p.(next := p.next + 1), at, p.next);
    case None => if Refusal(p) == AllBusy { EnqueueKeeps(p.(next := p.next + 1), p.next); } else { RefuseKeeps(p); }
  }

  lemma RefuseKeeps(p: Pool)
    requires WellFormed(p)
    ensures WellFormed(p.(next := p.next + 1, settled := p.settled[p.next := Refused(AllUnderfunded)]))
  {
    assert p.next !in p.grants;
  }

  lemma TimeoutKeeps(p: Pool, t: Ticket)
    requires WellFormed(p) && t in p.waiters
    ensures WellFormed(Timeout(p, t))
  {
    WithoutIs(p.waiters, t);
  }

  lemma FreeKeeps(p: Pool, at: Place)
    requires WellFormed(p)
    ensures WellFormed(Free(p, at))
  {}

  /** No call breaks the pool. */
  lemma ApplyKeeps(p: Pool, op: Op)
    requires WellFormed(p) && Allowed(p, op)
    ensures WellFormed(Apply(p, op))
  {
    match op
    case Arrive => AcquireKeeps(p);
    case Give(at) => FreeKeeps(p, at); HandOffKeeps(Free(p, at));
    case Timer(t) => TimeoutKeeps(p, t);
    case _ =>
  }

  // ------------------------------------------------------------------ handing off

  /** The eligible workers in the order `find` meets them. */
  function Eligibles(ws: seq<Worker>, from: Place): (r: seq<Place>)
    requires from <= |ws|
    ensures forall i :: i in r <==> from <= i < |ws| && ws[i].Eligible()
    ensures r == [] <==> FirstEligible(ws, from).None?
    decreases |ws| - from
  {
    if from == |ws| then []
    else (if ws[from].Eligible() then [from] else []) + Eligibles(ws, from + 1)
  }

  /** Leasing the first eligible worker removes exactly it from the front of the list. */
  lemma {:induction false} LeaseTakesFirst(ws: seq<Worker>, from: Place, w: Worker)
    requires from <= |ws| && Eligibles(ws, from) != [] && !w.Eligible()
    ensures FirstEligible(ws, from) == Some(Eligibles(ws, from)[0])
    ensures Eligibles(ws[Eligibles(ws, from)[0] := w], from) == Eligibles(ws, from)[1..]
    decreases |ws| - from
  {
    var first := Eligibles(ws, from)[0];
    if ws[from].Eligible() {
      OthersUnchanged(ws, from + 1, first, w);
    } else {
      LeaseTakesFirst(ws, from + 1, w);
      assert first in Eligibles(ws, from + 1);
    }
  }

  lemma {:induction false} OthersUnchanged(ws: seq<Worker>, from: Place, at: Place, w: Worker)
    requires at < from <= |ws|
    ensures Eligibles(ws[at := w], from) == Eligibles(ws, from)
    decreases |ws| - from
  {
    if from < |ws| {
      OthersUnchanged(ws, from + 1, at, w);
    }
  }

  /** `q` is `p` after its first waiters `ts` got the workers `taken`, in order. */
  ghost predicate Paired(p: Pool, q: Pool, ts: seq<Ticket>, taken: seq<Place>)
    requires |ts| == |taken|
  {
    && p.waiters == ts + q.waiters
    && q.grants == p.grants + ts
    && OthersKept(p, q, taken)
    && GrantedInOrder(p, q, ts, taken)
  }

  ghost predicate OthersKept(p: Pool, q: Pool, taken: seq<Place>) {
    && |q.workers| == |p.workers|
    && (forall i :: 0 <= i < |p.workers| && i !in taken ==> q.workers[i] == p.workers[i])
  }

  ghost predicate GrantedInOrder(p: Pool, q: Pool, ts: seq<Ticket>, taken: seq<Place>)
    requires |ts| == |taken|
  {
    && q.settled.Keys == p.settled.Keys + (set t | t in ts)
    && (forall t :: t in p.settled ==> q.settled[t] == p.settled[t])
    && (forall i :: 0 <= i < |ts| ==> q.settled[ts[i]] == Granted(taken[i]))
  }

  /** What `handOff` is called on: waiters in order, none settled. */
  ghost predicate Queueing(p: Pool) {
    Increasing(p.waiters) && (forall t :: t in p.waiters ==> t !in p.settled)
  }

  /** How many waiters `handOff` serves: it stops when either side runs out. */
  ghost function Served(p: Pool): (k: nat)
    ensures k <= |p.waiters| && k <= |Eligibles(p.workers, 0)|
  {
    Min(|p.waiters|, |Eligibles(p.workers, 0)|)
  }

  /**
   * `handOff` pairs the waiters with the eligible workers, both in order, until one of the
   * two runs out: the k-th waiter gets the k-th eligible worker and the rest stay queued.
   */
  lemma {:induction false} HandOffPairs(p: Pool)
    requires Queueing(p)
    ensures Paired(p, HandOff(p), p.waiters[..Served(p)], Eligibles(p.workers, 0)[..Served(p)])
    ensures Eligibles(HandOff(p).workers, 0) == Eligibles(p.workers, 0)[Served(p)..]
    decreases |p.waiters|
  {
    if p.waiters == [] || Eligibles(p.workers, 0) == [] {
      NothingPaired(p);
    } else {
      var r := FirstLeased(p);
      HandOffPairs(r);
      OneMorePaired(p, r, HandOff(r), Eligibles(p.workers, 0), Served(p));
    }
  }

  lemma NothingPaired(p: Pool)
    ensures Paired(p, p, p.waiters[..0], Eligibles(p.workers, 0)[..0])
    ensures Eligibles(p.workers, 0)[0..] == Eligibles(p.workers, 0)
  {}

  lemma OneMorePaired(p: Pool, r: Pool, q: Pool, es: seq<Place>, k: nat)
    requires 0 < k <= |p.waiters| && k <= |es| && es[0] < |p.workers| && p.waiters[0] !in p.settled
    requires r == Lease(p.(waiters := p.waiters[1..]), es[0], p.waiters[0])
    requires Paired(r, q, r.waiters[..k - 1], es[1..][..k - 1])
    ensures Paired(p, q, p.waiters[..k], es[..k])
    ensures es[1..][k - 1..] == es[k..]
  {
    assert p.waiters[..k][1..] == r.waiters[..k - 1];
    assert es[..k][1..] == es[1..][..k - 1];
    PairedStep(p, r, q, p.waiters[..k], es[..k]);
  }

  lemma FirstLeased(p: Pool) returns (r: Pool)
    requires Queueing(p) && p.waiters != [] && Eligibles(p.workers, 0) != []
    ensures Eligibles(p.workers, 0)[0] < |p.workers|
    ensures r == Lease(p.(waiters := p.waiters[1..]), Eligibles(p.workers, 0)[0], p.waiters[0])
    ensures Queueing(r) && HandOff(p) == HandOff(r)
    ensures Eligibles(r.workers, 0) == Eligibles(p.workers, 0)[1..]
    ensures |r.waiters| == |p.waiters| - 1 && Served(r) == Served(p) - 1
  {
    var es := Eligibles(p.workers, 0);
    assert es[0] in es;
    r := Lease(p.(waiters := p.waiters[1..]), es[0], p.waiters[0]);
    LeaseTakesFirst(p.workers, 0, r.workers[es[0]]);
    forall t | t in p.waiters[1..] ensures p.waiters[0] < t && t in p.waiters {
      var i :| 0 <= i < |p.waiters[1..]| && p.waiters[1..][i] == t;
      assert p.waiters[i + 1] == t;
    }
  }

  lemma PairedStep(p: Pool, r: Pool, q: Pool, ts: seq<Ticket>, taken: seq<Place>)
    requires |ts| == |taken| > 0 && p.waiters != [] && ts[0] == p.waiters[0]
    requires taken[0] < |p.workers| && ts[0] !in p.settled
    requires r == Lease(p.(waiters := p.waiters[1..]), taken[0], ts[0])
    requires Paired(r, q, ts[1..], taken[1..])
    ensures Paired(p, q, ts, taken)
  {
    assert q.grants == p.grants + ts by { MoveHead(p.grants, ts); }
    assert p.waiters == ts + q.waiters by { assert ts == [ts[0]] + ts[1..]; }
    GrantedStep(p, r, q, ts, taken);
    assert forall i :: i in taken <==> i == taken[0] || i in taken[1..];
  }

  lemma MoveHead<T>(a: seq<T>, b: seq<T>)
    requires b != []
    ensures a + [b[0]] + b[1..] == a + b
  {}

  lemma GrantedStep(p: Pool, r: Pool, q: Pool, ts: seq<Ticket>, taken: seq<Place>)
    requires |ts| == |taken| > 0 && ts[0] !in p.settled
    requires r.settled == p.settled[ts[0] := Granted(taken[0])]
    requires GrantedInOrder(r, q, ts[1..], taken[1..])
    ensures GrantedInOrder(p, q, ts, taken)
  {
    assert q.settled[ts[0]] == r.settled[ts[0]];
    forall i | 1 <= i < |ts| ensures q.settled[ts[i]] == Granted(taken[i]) {
      assert ts[1..][i - 1] == ts[i] && taken[1..][i - 1] == taken[i];
    }
  }
}
