/**
 * What the pool promises over whole runs: every arrival is settled once, leases follow
 * arrival order, nobody waits beside a free address after a release, and the reason given
 * for a refusal says whether waiting can help.
 */
module PoolFairness {
  import opened Options
  import opened Sequences
  import opened PoolModel

  predicate Possible(p: Pool, ops: seq<Op>)
    decreases |ops|
  {
    ops == [] || (Allowed(p, ops[0]) && Possible(Apply(p, ops[0]), ops[1..]))
  }

  function After(p: Pool, ops: seq<Op>): Pool
    decreases |ops|
  {
    if ops == [] then p else After(Apply(p, ops[0]), ops[1..])
  }

  lemma {:induction false} RunKeeps(p: Pool, ops: seq<Op>)
    requires WellFormed(p) && Possible(p, ops)
    ensures WellFormed(After(p, ops))
    decreases |ops|
  {
    if ops != [] {
      ApplyKeeps(p, ops[0]);
      RunKeeps(Apply(p, ops[0]), ops[1..]);
    }
  }

  // ------------------------------------------------------------------ settled exactly once

  lemma {:induction false} HandOffOnlyAdds(p: Pool)
    requires WellFormed(p)
    ensures forall t :: t in p.settled ==> t in HandOff(p).settled && HandOff(p).settled[t] == p.settled[t]
    ensures HandOff(p).next == p.next && |HandOff(p).workers| == |p.workers|
    decreases |p.waiters|
  {
    if p.waiters != [] && Available(p).Some? {
      var popped := p.(waiters := p.waiters[1..]);
      PopKeeps(p);
      LeaseKeeps(popped, Available(p).value, p.waiters[0]);
      assert p.waiters[0] in p.waiters;
      HandOffOnlyAdds(Lease(popped, Available(p).value, p.waiters[0]));
    }
  }

  lemma SettledStays(p: Pool, op: Op)
    requires WellFormed(p) && Allowed(p, op)
    ensures forall t :: t in p.settled ==> t in Apply(p, op).settled && Apply(p, op).settled[t] == p.settled[t]
  {
    if op.Give? {
      FreeKeeps(p, op.at);
      HandOffOnlyAdds(Free(p, op.at));
    }
  }

  ghost function Refusals(p: Pool): set<Ticket> { set t | t in p.settled && p.settled[t].Refused? }

  ghost function Abandonments(p: Pool): set<Ticket> { set t | t in p.settled && p.settled[t].Abandoned? }

  ghost function Below(n: nat): (r: set<Ticket>)
    ensures forall t: Ticket :: t in r <==> t < n
    ensures |r| == n
  {
    if n == 0 then {} else Below(n - 1) + {n - 1}
  }

  /** Arrivals are conserved: each is granted, refused, abandoned or still queued, exactly one of these. */
  lemma ArrivalsConserved(p: Pool)
    requires WellFormed(p)
    ensures p.next == |p.grants| + |Refusals(p)| + |Abandonments(p)| + |p.waiters|
  {
    var granted, queued := Elements(p.grants), Elements(p.waiters);
    ElementsCount(p.grants);
    ElementsCount(p.waiters);
    SumOfFour(granted, Refusals(p), Abandonments(p), queued, Below(p.next));
  }

  lemma SumOfFour<T>(a: set<T>, b: set<T>, c: set<T>, d: set<T>, all: set<T>)
    requires forall t :: t in all <==> t in a || t in b || t in c || t in d
    requires a * b == {} && a * c == {} && a * d == {} && b * c == {} && b * d == {} && c * d == {}
    ensures |all| == |a| + |b| + |c| + |d|
  {
    assert all == (a + b) + (c + d);
    assert (a + b) * (c + d) == {};
  }

  /** Over every run: a promise once settled keeps its outcome, and none is ever lost. */
  lemma {:induction false} SettledOnce(p: Pool, ops: seq<Op>)
    requires WellFormed(p) && Possible(p, ops)
    ensures forall t :: t in p.settled ==> t in After(p, ops).settled && After(p, ops).settled[t] == p.settled[t]
    ensures var q := After(p, ops);
      q.next == |q.grants| + |Refusals(q)| + |Abandonments(q)| + |q.waiters|
    decreases |ops|
  {
    if ops == [] {
      ArrivalsConserved(p);
    } else {
      SettledStays(p, ops[0]);
      ApplyKeeps(p, ops[0]);
      SettledOnce(Apply(p, ops[0]), ops[1..]);
    }
  }

  // ------------------------------------------------------------------ no lost wake-up

  /** Nobody is queued beside an address that could be handed out. */
  ghost predicate Quiet(p: Pool) { p.waiters == [] || Available(p).None? }

  lemma {:induction false} HandOffQuiets(p: Pool)
    ensures Quiet(HandOff(p))
    decreases |p.waiters|
  {
    if p.waiters != [] && Available(p).Some? {
      HandOffQuiets(Lease(p.(waiters := p.waiters[1..]), Available(p).value, p.waiters[0]));
    }
  }

  /** After every release, whatever came before it, no waiter is left beside an eligible address. */
  lemma ReleaseQuiets(p: Pool, at: Place)
    ensures Quiet(Release(p, at))
  {
    HandOffQuiets(Free(p, at));
  }

  /**
   * `setBalance` and `reconcile` do not call `handOff`. This is when such a call makes an idle
   * address eligible while somebody queues for one.
   */
  ghost predicate WakesSilently(p: Pool, op: Op) {
    && p.waiters != []
    && match op
       case Judge(at, hasOutstanding) =>
         at < |p.workers| && !hasOutstanding && !p.workers[at].busy
         && !p.workers[at].underfunded && p.workers[at].pendingNonce.Some?
       case Rebalance(at, balance, minimum) =>
         at < |p.workers| && balance >= minimum && !p.workers[at].busy && p.workers[at].pendingNonce.None?
       case _ => false
  }

  lemma NoneAvailable(p: Pool)
    requires WellFormed(p)
    ensures Available(p).None? <==> forall i :: 0 <= i < |p.workers| ==> !p.workers[i].Eligible()
  {}

  lemma QuietArrival(p: Pool)
    requires WellFormed(p) && Quiet(p)
    ensures Quiet(AcquireWithin(p))
  {}

  /** A single call leaves the pool quiet exactly when it is not a silent wake-up. */
  lemma QuietStep(p: Pool, op: Op)
    requires WellFormed(p) && Quiet(p) && Allowed(p, op)
    ensures Quiet(Apply(p, op)) <==> !WakesSilently(p, op)
  {
    ApplyKeeps(p, op);
    NoneAvailable(p);
    NoneAvailable(Apply(p, op));
    match op
    case Arrive => QuietArrival(p);
    case Give(at) => ReleaseQuiets(p, at);
    case Judge(at, hasOutstanding) =>
      if WakesSilently(p, op) { assert Apply(p, op).workers[at].Eligible(); }
    case Rebalance(at, balance, minimum) =>
      if WakesSilently(p, op) { assert Apply(p, op).workers[at].Eligible(); }
    case Timer(t) => if p.waiters == [] { WithoutIs(p.waiters, t); }
    case _ =>
  }

  lemma {:induction false} AfterSplit(p: Pool, ops: seq<Op>, i: nat)
    requires i < |ops|
    ensures After(p, ops[..i + 1]) == Apply(After(p, ops[..i]), ops[i])
    decreases i
  {
    if i > 0 {
      AfterSplit(Apply(p, ops[0]), ops[1..], i - 1);
      assert ops[..i + 1][1..] == ops[1..][..i] && ops[..i][1..] == ops[1..][..i - 1];
    } else {
      assert ops[..1] == [ops[0]] && ops[..0] == [];
      assert After(Apply(p, ops[0]), []) == Apply(p, ops[0]);
    }
  }

  lemma {:induction false} PrefixPossible(p: Pool, ops: seq<Op>, i: nat)
    requires i <= |ops| && Possible(p, ops)
    ensures Possible(p, ops[..i])
    ensures i < |ops| ==> Allowed(After(p, ops[..i]), ops[i])
    decreases i
  {
    if i > 0 {
      PrefixPossible(Apply(p, ops[0]), ops[1..], i - 1);
      assert ops[..i][1..] == ops[1..][..i - 1];
    }
  }

  /** A run stays quiet throughout exactly when none of its calls is a silent wake-up. */
  lemma {:induction false} QuietRun(p: Pool, ops: seq<Op>)
    requires WellFormed(p) && Quiet(p) && Possible(p, ops)
    ensures (forall i :: 0 <= i <= |ops| ==> Quiet(After(p, ops[..i])))
      <==> (forall i :: 0 <= i < |ops| ==> !WakesSilently(After(p, ops[..i]), ops[i]))
  {
    if forall i :: 0 <= i <= |ops| ==> Quiet(After(p, ops[..i])) {
      forall i | 0 <= i < |ops| ensures !WakesSilently(After(p, ops[..i]), ops[i]) {
        QuietAt(p, ops, i);
        assert Quiet(After(p, ops[..i + 1]));
      }
    }
    if forall i :: 0 <= i < |ops| ==> !WakesSilently(After(p, ops[..i]), ops[i]) {
      forall i | 0 <= i <= |ops| ensures Quiet(After(p, ops[..i])) {
        QuietUntil(p, ops, i);
      }
    }
  }

  lemma QuietAt(p: Pool, ops: seq<Op>, i: nat)
    requires WellFormed(p) && Possible(p, ops) && i < |ops| && Quiet(After(p, ops[..i]))
    ensures Quiet(After(p, ops[..i + 1])) <==> !WakesSilently(After(p, ops[..i]), ops[i])
  {
    PrefixPossible(p, ops, i);
    RunKeeps(p, ops[..i]);
    AfterSplit(p, ops, i);
    QuietStep(After(p, ops[..i]), ops[i]);
  }

  lemma {:induction false} QuietUntil(p: Pool, ops: seq<Op>, i: nat)
    requires WellFormed(p) && Quiet(p) && Possible(p, ops) && i <= |ops|
    requires forall k :: 0 <= k < |ops| ==> !WakesSilently(After(p, ops[..k]), ops[k])
    ensures Quiet(After(p, ops[..i]))
  {
    if i > 0 {
      QuietUntil(p, ops, i - 1);
      QuietAt(p, ops, i - 1);
    }
  }

  // ------------------------------------------------------------------ first come, first served

  /** Among the tickets in `among`, leases were granted in arrival order and every waiter comes later. */
  ghost predicate InOrder(p: Pool, among: set<Ticket>) {
    && (forall i, j :: 0 <= i < j < |p.grants| && p.grants[i] in among && p.grants[j] in among
          ==> p.grants[i] < p.grants[j])
    && (forall g, t :: g in p.grants && g in among && t in p.waiters ==> g < t)
  }

  ghost function Queue(p: Pool): set<Ticket> { Elements(p.waiters) }

  lemma HandOffInOrder(p: Pool, among: set<Ticket>)
    requires WellFormed(p) && InOrder(p, among)
    ensures InOrder(HandOff(p), among)
    ensures Queue(HandOff(p)) <= Queue(p)
  {
    HandOffPairs(p);
    var q, k := HandOff(p), Served(p);
    PrefixInOrder(p.grants, p.waiters, k, among);
    assert q.waiters == p.waiters[k..];
    forall t | t in q.waiters ensures t in p.waiters {}
  }

  lemma PrefixInOrder(grants: seq<Ticket>, waiters: seq<Ticket>, k: nat, among: set<Ticket>)
    requires k <= |waiters| && Increasing(waiters)
    requires forall i, j :: 0 <= i < j < |grants| && grants[i] in among && grants[j] in among ==> grants[i] < grants[j]
    requires forall g, t :: g in grants && g in among && t in waiters ==> g < t
    ensures var all := grants + waiters[..k];
      forall i, j :: 0 <= i < j < |all| && all[i] in among && all[j] in among ==> all[i] < all[j]
    ensures forall g, t :: g in grants + waiters[..k] && g in among && t in waiters[k..] ==> g < t
  {
    var all := grants + waiters[..k];
    forall i, j | 0 <= i < j < |all| && all[i] in among && all[j] in among ensures all[i] < all[j] {
      if j >= |grants| {
        assert all[j] == waiters[j - |grants|] && all[j] in waiters;
        if i >= |grants| {
          assert all[i] == waiters[i - |grants|];
        } else {
          assert all[i] == grants[i] && all[i] in grants;
        }
      }
    }
    forall g, t | g in all && g in among && t in waiters[k..] ensures g < t {
      var j :| 0 <= j < |waiters[k..]| && waiters[k..][j] == t;
      assert waiters[k + j] == t && t in waiters;
      if g !in grants {
        assert g in waiters[..k];
        var i :| 0 <= i < k && waiters[i] == g;
      }
    }
  }

  /** An arrival keeps the order when it queues, or takes an address nobody queued for, or is not compared. */
  lemma ArrivalInOrder(p: Pool, among: set<Ticket>)
    requires WellFormed(p) && InOrder(p, among)
    requires p.next !in among || p.waiters == [] || Available(p).None?
    ensures InOrder(AcquireWithin(p), among)
  {
    var q := AcquireWithin(p);
    assert forall g :: g in p.grants ==> g < p.next;
    if q.grants != p.grants {
      assert forall i :: 0 <= i < |p.grants| ==> q.grants[i] == p.grants[i] && p.grants[i] in p.grants;
    }
  }

  lemma StepInOrder(p: Pool, op: Op, among: set<Ticket>)
    requires WellFormed(p) && Allowed(p, op) && InOrder(p, among)
    requires op.Arrive? ==> p.next !in among || Quiet(p)
    ensures InOrder(Apply(p, op), among)
  {
    match op
    case Arrive => ArrivalInOrder(p, among);
    case Give(at) => FreeKeeps(p, at); HandOffInOrder(Free(p, at), among);
    case Timer(t) => WithoutIs(p.waiters, t);
    case _ =>
  }

  /** Every ticket that is in the queue in some state of the run. */
  ghost function EverQueued(p: Pool, ops: seq<Op>): set<Ticket>
    decreases |ops|
  {
    Queue(p) + if ops == [] then {} else EverQueued(Apply(p, ops[0]), ops[1..])
  }

  lemma {:induction false} SettledNeverQueues(p: Pool, ops: seq<Op>, t: Ticket)
    requires WellFormed(p) && Possible(p, ops) && t in p.settled
    ensures t !in EverQueued(p, ops)
    decreases |ops|
  {
    if ops != [] {
      SettledStays(p, ops[0]);
      ApplyKeeps(p, ops[0]);
      SettledNeverQueues(Apply(p, ops[0]), ops[1..], t);
    }
  }

  /** The tickets of `among` that have not arrived yet will all have to queue. */
  ghost predicate WillQueue(p: Pool, ops: seq<Op>, among: set<Ticket>) {
    forall t :: t in among && t >= p.next ==> t in EverQueued(p, ops)
  }

  lemma ServedAtOnceNotAmong(p: Pool, ops: seq<Op>, among: set<Ticket>)
    requires WellFormed(p) && Possible(p, ops) && ops != [] && ops[0].Arrive? && WillQueue(p, ops, among)
    requires Available(p).Some?
    ensures p.next !in among
  {
    ApplyKeeps(p, ops[0]);
    SettledNeverQueues(Apply(p, ops[0]), ops[1..], p.next);
  }

  lemma {:induction false} FifoFrom(p: Pool, ops: seq<Op>, among: set<Ticket>)
    requires WellFormed(p) && Possible(p, ops) && InOrder(p, among) && WillQueue(p, ops, among)
    ensures InOrder(After(p, ops), among)
    decreases |ops|
  {
    if ops != [] {
      ApplyKeeps(p, ops[0]);
      if ops[0].Arrive? && Available(p).Some? {
        ServedAtOnceNotAmong(p, ops, among);
      }
      StepInOrder(p, ops[0], among);
      NextGrows(p, ops[0]);
      FifoFrom(Apply(p, ops[0]), ops[1..], among);
    }
  }

  lemma NextGrows(p: Pool, op: Op)
    requires WellFormed(p)
    ensures p.next <= Apply(p, op).next && |Apply(p, op).workers| == |p.workers|
  {
    if op.Give? {
      FreeKeeps(p, op.at);
      HandOffOnlyAdds(Free(p, op.at));
    }
  }

  lemma FreshIsWellFormed(size: nat)
    ensures WellFormed(Fresh(size)) && Quiet(Fresh(size))
  {}

  /**
   * Arrivals that had to queue are served in the order they came, in every run: silent
   * wake-ups included, and whichever of them time out meanwhile.
   */
  lemma QueueIsFifo(size: nat, ops: seq<Op>)
    requires Possible(Fresh(size), ops)
    ensures InOrder(After(Fresh(size), ops), EverQueued(Fresh(size), ops))
  {
    FreshIsWellFormed(size);
    FifoFrom(Fresh(size), ops, EverQueued(Fresh(size), ops));
  }

  /** Leases followed arrival order, and whoever still queues arrived after all who were served. */
  ghost predicate Ordered(p: Pool) { Increasing(p.grants) && forall g, t :: g in p.grants && t in p.waiters ==> g < t }

  /** An arrival while others queue beside an address that it takes. */
  ghost predicate Passes(p: Pool, op: Op) { op.Arrive? && p.waiters != [] && Available(p).Some? }

  /** A single call lets somebody overtake exactly when it is such an arrival. */
  lemma OrderedStep(p: Pool, op: Op)
    requires WellFormed(p) && Ordered(p) && Allowed(p, op)
    ensures Ordered(Apply(p, op)) <==> !Passes(p, op)
  {
    var q := Apply(p, op);
    if Passes(p, op) {
      assert p.waiters[0] in q.waiters && p.next in q.grants && p.waiters[0] < p.next;
    } else {
      OthersKeepOrder(p, op);
    }
  }

  lemma OthersKeepOrder(p: Pool, op: Op)
    requires WellFormed(p) && Ordered(p) && Allowed(p, op) && !Passes(p, op)
    ensures Ordered(Apply(p, op))
  {
    var q := Apply(p, op);
    var n := p.next + q.next;
    ApplyKeeps(p, op);
    hide Apply, Allowed, Ordered, InOrder;
    OrderedIsInOrder(p, n);
    StepInOrder(p, op, Below(n));
    OrderedIsInOrder(q, n);
  }

  /** Among all tickets there are, being in order is being ordered. */
  lemma OrderedIsInOrder(p: Pool, n: nat)
    requires WellFormed(p) && p.next <= n
    ensures Ordered(p) <==> InOrder(p, Below(n))
  {
    assert forall g :: g in p.grants ==> g < p.next;
    hide WellFormed;
    assert forall i :: 0 <= i < |p.grants| ==> p.grants[i] in p.grants && p.grants[i] in Below(n);
  }

  lemma OrderedAt(p: Pool, ops: seq<Op>, i: nat)
    requires WellFormed(p) && Possible(p, ops) && i < |ops| && Ordered(After(p, ops[..i]))
    ensures Ordered(After(p, ops[..i + 1])) <==> !Passes(After(p, ops[..i]), ops[i])
  {
    PrefixPossible(p, ops, i);
    RunKeeps(p, ops[..i]);
    AfterSplit(p, ops, i);
    OrderedStep(After(p, ops[..i]), ops[i]);
  }

  lemma {:induction false} OrderedUntil(p: Pool, ops: seq<Op>, i: nat)
    requires WellFormed(p) && Ordered(p) && Possible(p, ops) && i <= |ops|
    requires forall k :: 0 <= k < i ==> !Passes(After(p, ops[..k]), ops[k])
    ensures Ordered(After(p, ops[..i]))
  {
    if i > 0 {
      OrderedUntil(p, ops, i - 1);
      OrderedAt(p, ops, i - 1);
    }
  }

  /**
   * Nobody is overtaken throughout a run if and only if nobody arrives in it while others queue beside an eligible
   * address.
   */
  lemma {:induction false} NoOvertaking(p: Pool, ops: seq<Op>)
    requires WellFormed(p) && Ordered(p) && Possible(p, ops)
    ensures (forall i :: 0 <= i <= |ops| ==> Ordered(After(p, ops[..i])))
      <==> (forall i :: 0 <= i < |ops| ==> !Passes(After(p, ops[..i]), ops[i]))
  {
    hide Ordered, Passes, WellFormed;
    if forall i :: 0 <= i <= |ops| ==> Ordered(After(p, ops[..i])) {
      forall i | 0 <= i < |ops| ensures !Passes(After(p, ops[..i]), ops[i]) {
        OrderedAt(p, ops, i);
        assert Ordered(After(p, ops[..i + 1]));
      }
    }
    if forall i :: 0 <= i < |ops| ==> !Passes(After(p, ops[..i]), ops[i]) {
      forall i | 0 <= i <= |ops| ensures Ordered(After(p, ops[..i])) {
        OrderedUntil(p, ops, i);
      }
    }
  }

  /** So it is enough that no call wakes silently; it is not necessary, as `WokenInOrder` shows. */
  lemma {:induction false} QuietRunIsOrdered(p: Pool, ops: seq<Op>)
    requires WellFormed(p) && Quiet(p) && Ordered(p) && Possible(p, ops)
    requires forall i :: 0 <= i < |ops| ==> !WakesSilently(After(p, ops[..i]), ops[i])
    ensures Increasing(After(p, ops).grants)
  {
    QuietRun(p, ops);
    forall i | 0 <= i < |ops| ensures !Passes(After(p, ops[..i]), ops[i]) {
      assert Quiet(After(p, ops[..i]));
    }
    OrderedUntil(p, ops, |ops|);
    assert ops[..|ops|] == ops;
  }

  lemma {:induction false} Trace(states: seq<Pool>, ops: seq<Op>)
    requires |states| == |ops| + 1
    requires forall i :: 0 <= i < |ops| ==> Allowed(states[i], ops[i]) && Apply(states[i], ops[i]) == states[i + 1]
    ensures Possible(states[0], ops) && After(states[0], ops) == states[|ops|]
    decreases |ops|
  {
    if ops != [] {
      assert Apply(states[0], ops[0]) == states[1];
      forall i | 0 <= i < |ops[1..]|
        ensures Allowed(states[1..][i], ops[1..][i]) && Apply(states[1..][i], ops[1..][i]) == states[1..][i + 1]
      {
        assert Allowed(states[i + 1], ops[i + 1]) && Apply(states[i + 1], ops[i + 1]) == states[i + 2];
      }
      Trace(states[1..], ops[1..]);
    }
  }

  /** A pool of one address, after `leases` leases. */
  ghost function One(w: Worker, waiters: seq<Ticket>, next: Ticket, settled: map<Ticket, Outcome>,
      grants: seq<Ticket>): Pool {
    Pool([w], waiters, next, settled, grants)
  }

  ghost function OvertakingRun(): seq<Op> {
    [Arrive, Arrive, Withhold(0, 7), Give(0), Judge(0, false), Arrive, Give(0)]
  }

  ghost function OvertakingStates(): seq<Pool> {
    var first := map[0 := Granted(0)];
    [ One(IDLE, [], 0, map[], []),
      One(Worker(true, false, None, 0, 1, Some(0), 0), [], 1, first, [0]),
      One(Worker(true, false, None, 0, 1, Some(0), 0), [1], 2, first, [0]),
      One(Worker(true, false, Some(7), 0, 1, Some(0), 1), [1], 2, first, [0]),
      One(Worker(false, false, Some(7), 0, 1, None, 1), [1], 2, first, [0]),
      One(Worker(false, false, None, 0, 1, None, 1), [1], 2, first, [0]),
      One(Worker(true, false, None, 0, 2, Some(2), 1), [1], 3, first[2 := Granted(0)], [0, 2]),
      One(Worker(true, false, None, 0, 3, Some(1), 1), [], 3, first[2 := Granted(0)][1 := Granted(0)], [0, 2, 1]) ]
  }

  lemma OneAvailable(w: Worker)
    ensures FirstEligible([w], 0) == if w.Eligible() then Some(0) else None
  {}

  lemma OneArrives(p: Pool, q: Pool, w: Worker)
    requires p == One(w, p.waiters, p.next, p.settled, p.grants)
    requires q == if w.Eligible()
      then One(w.(busy := true, leases := w.leases + 1, lessee := Some(p.next)), p.waiters, p.next + 1,
               p.settled[p.next := Granted(0)], p.grants + [p.next])
      else p.(waiters := p.waiters + [p.next], next := p.next + 1)
    requires w.Eligible() || w.WillFreeUp()
    ensures AcquireWithin(p) == q
  {
    OneAvailable(w);
    assert p.workers[0] == w;
  }

  lemma OneReleased(p: Pool, q: Pool, w: Worker, t: Ticket)
    requires p == One(w, [t], p.next, p.settled, p.grants)
    requires var f := w.(busy := false, lessee := None);
      q == if f.Eligible()
        then One(f.(busy := true, leases := f.leases + 1, lessee := Some(t)), [], p.next,
                 p.settled[t := Granted(0)], p.grants + [t])
        else One(f, [t], p.next, p.settled, p.grants)
    ensures Release(p, 0) == q
  {
    var f := Free(p, 0);
    OneAvailable(f.workers[0]);
    if f.workers[0].Eligible() {
      assert Lease(f.(waiters := f.waiters[1..]), 0, t) == q;
      assert HandOff(f) == HandOff(q);
    }
  }

  lemma OvertakingSteps(i: nat)
    requires i < 7
    ensures Allowed(OvertakingStates()[i], OvertakingRun()[i])
    ensures Apply(OvertakingStates()[i], OvertakingRun()[i]) == OvertakingStates()[i + 1]
  {
    var p, q := OvertakingStates()[i], OvertakingStates()[i + 1];
    var w := p.workers[0];
    match i
    case 0 => OneArrives(p, q, w);
    case 1 => OneArrives(p, q, w);
    case 3 => OneReleased(p, q, w, 1);
    case 5 => OneArrives(p, q, w);
    case 6 => OneReleased(p, q, w, 1);
    case _ =>
  }

  /**
   * The promise fails without that condition: ticket 1 waits beside the address that
   * `reconcile` returned to service, and ticket 2, arriving later, takes it.
   */
  lemma OvertakenAfterReconcile()
    ensures Possible(Fresh(1), OvertakingRun())
    ensures After(Fresh(1), OvertakingRun()).grants == [0, 2, 1]
  {
    assert Fresh(1) == OvertakingStates()[0];
    forall i | 0 <= i < 7
      ensures Allowed(OvertakingStates()[i], OvertakingRun()[i])
        && Apply(OvertakingStates()[i], OvertakingRun()[i]) == OvertakingStates()[i + 1]
    {
      OvertakingSteps(i);
    }
    Trace(OvertakingStates(), OvertakingRun());
  }

  ghost function WakingRun(): seq<Op> { OvertakingRun()[..5] + [Give(0)] }

  ghost function WakingStates(): seq<Pool> {
    OvertakingStates()[..6] + [
      One(Worker(true, false, None, 0, 2, Some(1), 1), [], 2, map[0 := Granted(0), 1 := Granted(0)], [0, 1])]
  }

  lemma WakingSteps(i: nat)
    requires i < 6
    ensures Allowed(WakingStates()[i], WakingRun()[i])
    ensures Apply(WakingStates()[i], WakingRun()[i]) == WakingStates()[i + 1]
  {
    assert WakingStates()[..6] == OvertakingStates()[..6];
    if i < 5 {
      OvertakingSteps(i);
    } else {
      OneReleased(WakingStates()[5], WakingStates()[6], WakingStates()[5].workers[0], 1);
    }
  }

  lemma WakingInOrder(i: nat)
    requires i <= 6
    ensures |WakingStates()| == 7 && Ordered(WakingStates()[i])
    ensures WakesSilently(WakingStates()[4], WakingRun()[4])
    ensures WakingStates()[0] == Fresh(1) && WakingStates()[6].grants == [0, 1]
  {
  }

  /** The same wake-up with nobody arriving before the next release: ticket 1 is served, and nobody was overtaken. */
  lemma WokenInOrder()
    ensures Possible(Fresh(1), WakingRun()) && After(Fresh(1), WakingRun()).grants == [0, 1]
    ensures WakesSilently(After(Fresh(1), WakingRun()[..4]), WakingRun()[4])
    ensures forall i :: 0 <= i <= |WakingRun()| ==> Ordered(After(Fresh(1), WakingRun()[..i]))
  {
    var states, ops := WakingStates(), WakingRun();
    WakingInOrder(0);
    hide Apply, Allowed, WakingStates, Ordered, WakesSilently;
    forall i | 0 <= i <= 6 ensures Possible(Fresh(1), ops[..i]) && After(Fresh(1), ops[..i]) == states[i] {
      forall k | 0 <= k < i ensures Allowed(states[k], ops[k]) && Apply(states[k], ops[k]) == states[k + 1] {
        WakingSteps(k);
      }
      Trace(states[..i + 1], ops[..i]);
    }
    forall i | 0 <= i <= 6 ensures Ordered(After(Fresh(1), ops[..i])) { WakingInOrder(i); }
    assert ops[..6] == ops;
  }

  // ------------------------------------------------------------------ the reason for a refusal

  /** Calls that give addresses back: releases, and reconciliations that find nothing outstanding. */
  predicate OnlyReturns(ops: seq<Op>) {
    forall i :: 0 <= i < |ops| ==> ops[i].Give? || (ops[i].Judge? && !ops[i].hasOutstanding)
  }

  /** Somebody could be served: a lease was handed out, or one could be. */
  ghost predicate Helped(before: Pool, after: Pool) {
    Available(after).Some? || |after.grants| > |before.grants|
  }

  ghost predicate AllDry(p: Pool) { forall i :: 0 <= i < |p.workers| ==> p.workers[i].underfunded }

  lemma DryStep(p: Pool, op: Op)
    requires WellFormed(p) && AllDry(p) && Allowed(p, op) && !op.Rebalance?
    ensures AllDry(Apply(p, op)) && Apply(p, op).grants == p.grants && Available(Apply(p, op)).None?
  {
    ApplyKeeps(p, op);
    if op.Give? {
      assert Available(Free(p, op.at)).None?;
    }
  }

  /** With every address dry no sequence of calls but a balance update hands out another lease. */
  lemma {:induction false} PatienceDoesNotRefill(p: Pool, ops: seq<Op>)
    requires WellFormed(p) && AllDry(p) && Possible(p, ops)
    requires forall i :: 0 <= i < |ops| ==> !ops[i].Rebalance?
    ensures !Helped(p, After(p, ops))
    decreases |ops|
  {
    NoneAvailable(p);
    if ops != [] {
      DryStep(p, ops[0]);
      ApplyKeeps(p, ops[0]);
      PatienceDoesNotRefill(Apply(p, ops[0]), ops[1..]);
    }
  }

  /** A funded address that is busy or withheld comes back with one reconciliation and one release. */
  lemma ReturnHelps(p: Pool, at: Place)
    requires WellFormed(p) && at < |p.workers| && !p.workers[at].underfunded
    ensures var ops := [Judge(at, false), Give(at)];
      OnlyReturns(ops) && Possible(p, ops) && Helped(p, After(p, ops))
  {
    var q := Apply(p, Judge(at, false));
    ApplyKeeps(p, Judge(at, false));
    assert !q.workers[at].underfunded && q.workers[at].pendingNonce.None? && q.grants == p.grants;
    ReleaseHelps(q, at);
    TwoCalls(p, Judge(at, false), Give(at));
  }

  lemma TwoCalls(p: Pool, first: Op, second: Op)
    requires !first.Timer? && !second.Timer?
    ensures Possible(p, [first, second]) && After(p, [first, second]) == Apply(Apply(p, first), second)
  {
    var states, ops := [p, Apply(p, first), Apply(Apply(p, first), second)], [first, second];
    forall i | 0 <= i < 2 ensures Allowed(states[i], ops[i]) && Apply(states[i], ops[i]) == states[i + 1] {}
    Trace(states, ops);
  }

  lemma ReleaseHelps(p: Pool, at: Place)
    requires WellFormed(p) && at < |p.workers| && !p.workers[at].underfunded && p.workers[at].pendingNonce.None?
    ensures Helped(p, Release(p, at))
  {
    var f := Free(p, at);
    FreeKeeps(p, at);
    assert f.workers[at].Eligible();
    HandOffPairs(f);
  }

  /**
   * The reason answers exactly "can waiting help?": when nothing is available, the refusal is
   * `all_busy` if and only if some sequence of releases and reconciliations serves somebody.
   */
  lemma RefusalSaysWhetherWaitingHelps(p: Pool)
    requires WellFormed(p) && Available(p).None?
    ensures Refusal(p) == AllBusy <==>
      exists ops: seq<Op> :: OnlyReturns(ops) && Possible(p, ops) && Helped(p, After(p, ops))
    ensures Refusal(p) == AllUnderfunded <==> AllDry(p)
  {
    NoneAvailable(p);
    if Refusal(p) == AllBusy {
      var at :| 0 <= at < |p.workers| && p.workers[at].WillFreeUp();
      ReturnHelps(p, at);
    } else {
      forall i | 0 <= i < |p.workers| ensures p.workers[i].underfunded {
        assert !p.workers[i].WillFreeUp() && !p.workers[i].Eligible();
      }
      forall ops: seq<Op> | OnlyReturns(ops) && Possible(p, ops) ensures !Helped(p, After(p, ops)) {
        PatienceDoesNotRefill(p, ops);
      }
    }
  }
}
