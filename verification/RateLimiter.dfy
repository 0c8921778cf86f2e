/**
 * The sliding-window limiter: an in-place pruned list of hits, proved to answer every call as
 * a limiter would that never forgets a hit, and never to let more than `limit` through in any
 * window.
 */
module RateLimiter {
  import opened Integers
  import opened Sequences

  datatype Limits = Limits(limit: nat, windowMs: nat)

  datatype Call = TryAcquire(now: int) | RetryAfter(now: int) | Used(now: int)

  datatype Reply = Allowed(ok: bool) | Delay(ms: int) | InUse(n: nat)

  // ------------------------------------------------------------------ the code

  /** `prune`: the leading hits at or before the cutoff are shifted out. */
  function Pruned(hits: seq<int>, cutoff: int): seq<int> {
    if hits != [] && hits[0] <= cutoff then Pruned(hits[1..], cutoff) else hits
  }

  function ReplyTo(l: Limits, hits: seq<int>, call: Call): Reply {
    var kept := Pruned(hits, call.now - l.windowMs);
    match call
    case TryAcquire(_) => Allowed(|kept| < l.limit)
    case Used(_) => InUse(|kept|)
    case RetryAfter(now) =>
      if l.limit == 0 then Delay(l.windowMs)
      else if |kept| < l.limit then Delay(0)
      else Delay(Max(0, kept[0] + l.windowMs - now))
  }

  function HitsAfter(l: Limits, hits: seq<int>, call: Call): seq<int> {
    var kept := Pruned(hits, call.now - l.windowMs);
    if call.TryAcquire? && |kept| < l.limit then kept + [call.now] else kept
  }

  class RateLimiter {
    const limits: Limits
    var hits: seq<int>

    constructor (limit: nat, windowMs: nat := 60_000)
      ensures limits == Limits(limit, windowMs) && hits == []
    {
      limits := Limits(limit, windowMs);
      hits := [];
    }

    method Prune(now: int)
      modifies this
      ensures hits == Pruned(old(hits), now - limits.windowMs)
    {
      var cutoff := now - limits.windowMs;
      while |hits| > 0 && hits[0] <= cutoff
        invariant Pruned(hits, cutoff) == Pruned(old(hits), cutoff)
        decreases |hits|
      {
        hits := hits[1..];
      }
    }

    method TryAcquire(now: int) returns (ok: bool)
      modifies this
      ensures hits == HitsAfter(limits, old(hits), Call.TryAcquire(now))
      ensures Allowed(ok) == ReplyTo(limits, old(hits), Call.TryAcquire(now))
    {
      Prune(now);
      if |hits| >= limits.limit { return false; }
      hits := hits + [now];
      return true;
    }

    method RetryAfterMs(now: int) returns (ms: int)
      modifies this
      ensures hits == HitsAfter(limits, old(hits), RetryAfter(now))
      ensures Delay(ms) == ReplyTo(limits, old(hits), RetryAfter(now))
    {
      Prune(now);
      if limits.limit <= 0 { return limits.windowMs; }
      if |hits| < limits.limit { return 0; }
      return Max(0, hits[0] + limits.windowMs - now);
    }

    method Used(now: int) returns (n: nat)
      modifies this
      ensures hits == HitsAfter(limits, old(hits), Call.Used(now))
      ensures InUse(n) == ReplyTo(limits, old(hits), Call.Used(now))
    {
      Prune(now);
      n := |hits|;
    }
  }

  // ------------------------------------------------------------------ the limiter that forgets nothing

  function Newer(log: seq<int>, cutoff: int): seq<int> {
    if log == [] then []
    else (if log[0] > cutoff then [log[0]] else []) + Newer(log[1..], cutoff)
  }

  function FullReply(l: Limits, log: seq<int>, call: Call): Reply {
    var recent := Newer(log, call.now - l.windowMs);
    match call
    case TryAcquire(_) => Allowed(|recent| < l.limit)
    case Used(_) => InUse(|recent|)
    case RetryAfter(now) =>
      if l.limit == 0 then Delay(l.windowMs)
      else if |recent| < l.limit then Delay(0)
      else Delay(Max(0, recent[0] + l.windowMs - now))
  }

  /** The log of accepted hits; nothing is ever removed from it. */
  function LogAfter(l: Limits, log: seq<int>, call: Call): seq<int> {
    if FullReply(l, log, call) == Allowed(true) then log + [call.now] else log
  }

  // ------------------------------------------------------------------ histories

  /** The clock never runs backwards. */
  ghost predicate Monotone(last: int, calls: seq<Call>) {
    && (forall i :: 0 <= i < |calls| ==> last <= calls[i].now)
    && (forall i, j :: 0 <= i <= j < |calls| ==> calls[i].now <= calls[j].now)
  }

  function Replies(l: Limits, hits: seq<int>, calls: seq<Call>): seq<Reply>
    decreases |calls|
  {
    if calls == [] then []
    else [ReplyTo(l, hits, calls[0])] + Replies(l, HitsAfter(l, hits, calls[0]), calls[1..])
  }

  function FullReplies(l: Limits, log: seq<int>, calls: seq<Call>): seq<Reply>
    decreases |calls|
  {
    if calls == [] then []
    else [FullReply(l, log, calls[0])] + FullReplies(l, LogAfter(l, log, calls[0]), calls[1..])
  }

  function Hits(l: Limits, hits: seq<int>, calls: seq<Call>): seq<int>
    decreases |calls|
  {
    if calls == [] then hits else Hits(l, HitsAfter(l, hits, calls[0]), calls[1..])
  }

  function Log(l: Limits, log: seq<int>, calls: seq<Call>): seq<int>
    decreases |calls|
  {
    if calls == [] then log else Log(l, LogAfter(l, log, calls[0]), calls[1..])
  }

  /**
   * After a call at `last`: whatever cutoff comes next, pruning the kept hits gives the log's
   * recent ones; and hits `limit` apart lie a window apart.
   */
  ghost predicate Refines(l: Limits, hits: seq<int>, log: seq<int>, last: int) {
    && Sorted(log)
    && (forall i :: 0 <= i < |log| ==> log[i] <= last)
    && (forall c :: c >= last - l.windowMs ==> Pruned(hits, c) == Newer(log, c))
    && Spaced(l, log)
  }

  ghost predicate Spaced(l: Limits, log: seq<int>) {
    forall i :: 0 <= i && i + l.limit < |log| ==> log[i] + l.windowMs <= log[i + l.limit]
  }

  lemma {:induction false} PrunedTwice(hits: seq<int>, first: int, second: int)
    requires first <= second
    ensures Pruned(Pruned(hits, first), second) == Pruned(hits, second)
  {
    if hits != [] && hits[0] <= first {
      PrunedTwice(hits[1..], first, second);
    }
  }

  lemma {:induction false} PrunedAppend(hits: seq<int>, cutoff: int, now: int)
    ensures now > cutoff ==> Pruned(hits + [now], cutoff) == Pruned(hits, cutoff) + [now]
    ensures now <= cutoff && Pruned(hits, cutoff) == [] ==> Pruned(hits + [now], cutoff) == []
  {
    if hits != [] && hits[0] <= cutoff {
      PrunedAppend(hits[1..], cutoff, now);
      assert (hits + [now])[1..] == hits[1..] + [now];
    }
  }

  lemma {:induction false} NoneNewer(log: seq<int>, cutoff: int)
    requires forall i :: 0 <= i < |log| ==> log[i] <= cutoff
    ensures Newer(log, cutoff) == []
  {
    if log != [] {
      NoneNewer(log[1..], cutoff);
    }
  }

  lemma {:induction false} AllNewer(log: seq<int>, cutoff: int)
    requires forall i :: 0 <= i < |log| ==> log[i] > cutoff
    ensures Newer(log, cutoff) == log
  {
    if log != [] {
      AllNewer(log[1..], cutoff);
    }
  }

  /** In a sorted log the recent hits are a suffix, so having fewer than `n` of them dates the n-th last. */
  lemma {:induction false} FewNewer(log: seq<int>, cutoff: int, n: nat)
    requires Sorted(log) && |Newer(log, cutoff)| < n <= |log|
    ensures log[|log| - n] <= cutoff
  {
    if log[0] > cutoff {
      AllNewer(log, cutoff);
    } else if n < |log| {
      FewNewer(log[1..], cutoff, n);
    }
  }

  lemma {:induction false} NewerAppend(log: seq<int>, cutoff: int, now: int)
    requires now > cutoff
    ensures Newer(log + [now], cutoff) == Newer(log, cutoff) + [now]
  {
    if log == [] {
      assert [] + [now] == [now] && Newer([], cutoff) == [];
    } else {
      NewerAppend(log[1..], cutoff, now);
      assert (log + [now])[1..] == log[1..] + [now];
    }
  }

  lemma {:induction false} NewerAppendOld(log: seq<int>, cutoff: int, now: int)
    requires now <= cutoff
    ensures Newer(log + [now], cutoff) == Newer(log, cutoff)
  {
    if log != [] {
      NewerAppendOld(log[1..], cutoff, now);
      assert (log + [now])[1..] == log[1..] + [now];
    }
  }

  lemma AcceptKeepsSpacing(l: Limits, log: seq<int>, now: int)
    requires Sorted(log) && Spaced(l, log) && |Newer(log, now - l.windowMs)| < l.limit
    ensures Spaced(l, log + [now])
  {
    if l.limit <= |log| {
      FewNewer(log, now - l.windowMs, l.limit);
    }
  }

  lemma StepRefines(l: Limits, hits: seq<int>, log: seq<int>, last: int, call: Call)
    requires Refines(l, hits, log, last) && last <= call.now
    ensures ReplyTo(l, hits, call) == FullReply(l, log, call)
    ensures Refines(l, HitsAfter(l, hits, call), LogAfter(l, log, call), call.now)
  {
    var now, cutoff := call.now, call.now - l.windowMs;
    assert Pruned(hits, cutoff) == Newer(log, cutoff);
    hide Pruned, Newer, Spaced;
    if LogAfter(l, log, call) != log {
      AcceptKeepsSpacing(l, log, now);
      AcceptAgrees(l, hits, log, last, now);
    } else {
      PruningAgrees(l, hits, log, last, now);
    }
  }

  lemma PruningAgrees(l: Limits, hits: seq<int>, log: seq<int>, last: int, now: int)
    requires Refines(l, hits, log, last) && last <= now
    ensures forall c :: c >= now - l.windowMs ==> Pruned(Pruned(hits, now - l.windowMs), c) == Newer(log, c)
  {
    forall c | c >= now - l.windowMs ensures Pruned(Pruned(hits, now - l.windowMs), c) == Newer(log, c) {
      PrunedTwice(hits, now - l.windowMs, c);
    }
  }

  lemma AcceptAgrees(l: Limits, hits: seq<int>, log: seq<int>, last: int, now: int)
    requires Refines(l, hits, log, last) && last <= now
    ensures forall c :: c >= now - l.windowMs ==>
      Pruned(Pruned(hits, now - l.windowMs) + [now], c) == Newer(log + [now], c)
  {
    var cutoff := now - l.windowMs;
    forall c | c >= cutoff ensures Pruned(Pruned(hits, cutoff) + [now], c) == Newer(log + [now], c) {
      PrunedTwice(hits, cutoff, c);
      AppendAgrees(Pruned(hits, cutoff), log, c, now);
    }
  }

  lemma AppendAgrees(hits: seq<int>, log: seq<int>, c: int, now: int)
    requires Pruned(hits, c) == Newer(log, c)
    requires forall i :: 0 <= i < |log| ==> log[i] <= now
    ensures Pruned(hits + [now], c) == Newer(log + [now], c)
  {
    PrunedAppend(hits, c, now);
    if now > c {
      NewerAppend(log, c, now);
    } else {
      NoneNewer(log, c);
      NewerAppendOld(log, c, now);
    }
  }

  /** On every monotone call history the pruned list answers exactly as the full log does. */
  lemma {:induction false} RefinesFullLog(l: Limits, hits: seq<int>, log: seq<int>, last: int, calls: seq<Call>)
    requires Refines(l, hits, log, last) && Monotone(last, calls)
    ensures Replies(l, hits, calls) == FullReplies(l, log, calls)
    ensures Refines(l, Hits(l, hits, calls), Log(l, log, calls), if calls == [] then last else calls[|calls| - 1].now)
    decreases |calls|
  {
    if calls != [] {
      StepRefines(l, hits, log, last, calls[0]);
      RefinesFullLog(l, HitsAfter(l, hits, calls[0]), LogAfter(l, log, calls[0]), calls[0].now, calls[1..]);
    }
  }

  lemma FreshRefines(l: Limits, last: int)
    ensures Refines(l, [], [], last)
  {}

  // ------------------------------------------------------------------ how much a window lets through

  /** How many hits fall in `(from, to]`. */
  function Within(log: seq<int>, from: int, to: int): nat {
    if log == [] then 0
    else (if from < log[0] <= to then 1 else 0) + Within(log[1..], from, to)
  }

  lemma {:induction false} WithinAppend(a: seq<int>, b: seq<int>, from: int, to: int)
    ensures Within(a + b, from, to) == Within(a, from, to) + Within(b, from, to)
    ensures Within(b, from, to) <= |b|
    decreases |a| + |b|
  {
    if a != [] {
      assert (a + b)[1..] == a[1..] + b;
      WithinAppend(a[1..], b, from, to);
    } else if b != [] {
      assert a + b == b;
      WithinAppend([], b[1..], from, to);
      assert [] + b[1..] == b[1..];
    }
  }

  lemma {:induction false} NoneWithin(log: seq<int>, from: int, to: int)
    requires forall i :: 0 <= i < |log| ==> log[i] <= from
    ensures Within(log, from, to) == 0
  {
    if log != [] {
      NoneWithin(log[1..], from, to);
    }
  }

  /** Any window, wherever it starts, holds at most `limit` accepted hits. */
  lemma {:induction false} WindowBound(l: Limits, log: seq<int>, from: int, to: int)
    requires Sorted(log) && Spaced(l, log) && to - from <= l.windowMs
    requires l.limit == 0 ==> log == []
    ensures Within(log, from, to) <= l.limit
    decreases |log|
  {
    if log != [] {
      var n := |log|;
      var init, last := log[..n - 1], log[n - 1];
      assert log == init + [last];
      if from < last <= to {
        LastWindow(l, log, from, to, if l.limit <= n then n - l.limit else 0);
      } else {
        WithinAppend(init, [last], from, to);
        WindowBound(l, init, from, to);
      }
    }
  }

  lemma LastWindow(l: Limits, log: seq<int>, from: int, to: int, cut: nat)
    requires Sorted(log) && Spaced(l, log) && cut <= |log| && (cut > 0 ==> |log| == cut + l.limit)
    requires log != [] && log[|log| - 1] - l.windowMs <= from && |log| - cut <= l.limit && l.limit > 0
    ensures Within(log, from, to) <= l.limit
  {
    assert log == log[..cut] + log[cut..];
    forall i | 0 <= i < cut ensures log[..cut][i] <= from {
      assert log[i] <= log[cut - 1] && log[cut - 1] + l.windowMs <= log[cut - 1 + l.limit];
    }
    NoneWithin(log[..cut], from, to);
    WithinAppend(log[..cut], log[cut..], from, to);
  }

  lemma {:induction false} WithinSplit(log: seq<int>, a: int, b: int, c: int)
    requires a <= b <= c
    ensures Within(log, a, c) == Within(log, a, b) + Within(log, b, c)
  {
    if log != [] {
      WithinSplit(log[1..], a, b, c);
    }
  }

  /** ... and any `k` consecutive windows at most `k * limit`. */
  lemma {:induction false} WindowsBound(l: Limits, log: seq<int>, to: int, k: nat)
    requires Sorted(log) && Spaced(l, log)
    requires l.limit == 0 ==> log == []
    ensures Within(log, to - k * l.windowMs, to) <= k * l.limit
    decreases k
  {
    if k == 0 {
      EmptyWindow(log, to);
    } else {
      var from, mid := to - k * l.windowMs, to - (k - 1) * l.windowMs;
      assert mid - from == l.windowMs;
      assert 0 <= (k - 1) * l.windowMs;
      WindowsBound(l, log, to, k - 1);
      WindowBound(l, log, from, mid);
      WithinSplit(log, from, mid, to);
      assert k * l.limit == (k - 1) * l.limit + l.limit;
    }
  }

  lemma {:induction false} EmptyWindow(log: seq<int>, at: int)
    ensures Within(log, at, at) == 0
  {
    if log != [] {
      EmptyWindow(log[1..], at);
    }
  }

  lemma {:induction false} FrozenLogStaysEmpty(l: Limits, calls: seq<Call>)
    requires l.limit == 0
    ensures Log(l, [], calls) == []
    decreases |calls|
  {
    if calls != [] {
      FrozenLogStaysEmpty(l, calls[1..]);
    }
  }

  /** Over every monotone history at most `k * limit` requests pass in `k` windows; frozen intake included. */
  lemma AdmissionRate(l: Limits, last: int, calls: seq<Call>, to: int, k: nat)
    requires Monotone(last, calls)
    ensures Within(Log(l, [], calls), to - k * l.windowMs, to) <= k * l.limit
  {
    FreshRefines(l, last);
    RefinesFullLog(l, [], [], last, calls);
    if l.limit == 0 {
      FrozenLogStaysEmpty(l, calls);
    }
    WindowsBound(l, Log(l, [], calls), to, k);
  }

  // ------------------------------------------------------------------ the retry delay

  lemma {:induction false} NewerIsWithin(log: seq<int>, from: int, to: int)
    requires Sorted(log) && forall i :: 0 <= i < |log| ==> log[i] <= to
    ensures |Newer(log, from)| == Within(log, from, to)
    ensures Newer(log, from) != [] ==> from < Newer(log, from)[0] <= to
  {
    if log != [] {
      NewerIsWithin(log[1..], from, to);
    }
  }

  /** What pruning leaves: no more hits than the limit, the first of them still inside the window. */
  lemma KeptAfter(l: Limits, log: seq<int>, now: int)
    requires Sorted(log) && Spaced(l, log) && (l.limit == 0 ==> log == [])
    requires forall i :: 0 <= i < |log| ==> log[i] <= now
    ensures var kept := Newer(log, now - l.windowMs);
      |kept| <= l.limit && (kept != [] ==> now - l.windowMs < kept[0] <= now)
  {
    NewerIsWithin(log, now - l.windowMs, now);
    WindowBound(l, log, now - l.windowMs, now);
  }

  lemma {:induction false} NothingToPrune(hits: seq<int>, cutoff: int)
    requires hits == [] || hits[0] > cutoff
    ensures Pruned(hits, cutoff) == hits
  {}

  /** Before the delay is over every call leaves a full limiter full, and every attempt is refused. */
  lemma {:induction false} RefusedUntilDue(l: Limits, hits: seq<int>, last: int, calls: seq<Call>)
    requires |hits| == l.limit > 0 && Monotone(last, calls)
    requires forall i :: 0 <= i < |calls| ==> calls[i].now < hits[0] + l.windowMs
    ensures Hits(l, hits, calls) == hits
    ensures |Replies(l, hits, calls)| == |calls|
    ensures forall i :: 0 <= i < |calls| && calls[i].TryAcquire? ==> Replies(l, hits, calls)[i] == Allowed(false)
    decreases |calls|
  {
    if calls != [] {
      NothingToPrune(hits, calls[0].now - l.windowMs);
      RefusedUntilDue(l, hits, calls[0].now, calls[1..]);
      forall i | 0 <= i < |calls| && calls[i].TryAcquire?
        ensures Replies(l, hits, calls)[i] == Allowed(false)
      {
        if i > 0 { assert calls[i] == calls[1..][i - 1]; }
      }
    }
  }

  /**
   * The delay is exact: whatever calls come in before it is over, every attempt among them is
   * refused, and an attempt at the very instant it is over succeeds, unless intake is frozen.
   */
  lemma RetryAfterIsExact(l: Limits, hits: seq<int>, log: seq<int>, last: int, now: int, calls: seq<Call>, r: int)
    requires Refines(l, hits, log, last) && last <= now && (l.limit == 0 ==> log == [])
    requires ReplyTo(l, hits, RetryAfter(now)) == Delay(r)
    requires Monotone(now, calls) && forall i :: 0 <= i < |calls| ==> calls[i].now < now + r
    ensures r >= 0
    ensures var asked := HitsAfter(l, hits, RetryAfter(now));
      && |Replies(l, asked, calls)| == |calls|
      && (forall i :: 0 <= i < |calls| && calls[i].TryAcquire? ==> Replies(l, asked, calls)[i] == Allowed(false))
      && ReplyTo(l, Hits(l, asked, calls), TryAcquire(now + r)) == Allowed(l.limit > 0)
  {
    Asked(l, hits, log, last, now);
    ExactFrom(l, HitsAfter(l, hits, RetryAfter(now)), now, calls);
  }

  lemma Asked(l: Limits, hits: seq<int>, log: seq<int>, last: int, now: int)
    requires Refines(l, hits, log, last) && last <= now && (l.limit == 0 ==> log == [])
    ensures var kept := HitsAfter(l, hits, RetryAfter(now));
      && |kept| <= l.limit && (kept != [] ==> now - l.windowMs < kept[0] <= now)
      && ReplyTo(l, hits, RetryAfter(now)) == Delay(DelayOf(l, kept, now))
  {
    KeptIsNewer(l, hits, log, last, now);
    hide Refines, Pruned, Newer, Spaced, Sorted;
    KeptAfter(l, log, now);
  }

  lemma KeptIsNewer(l: Limits, hits: seq<int>, log: seq<int>, last: int, now: int)
    requires Refines(l, hits, log, last) && last <= now
    ensures Pruned(hits, now - l.windowMs) == Newer(log, now - l.windowMs)
    ensures Sorted(log) && Spaced(l, log) && forall i :: 0 <= i < |log| ==> log[i] <= now
  {
  }

  ghost function DelayOf(l: Limits, kept: seq<int>, now: int): int {
    if l.limit == 0 then l.windowMs else if |kept| < l.limit then 0 else if kept == [] then 0
      else kept[0] + l.windowMs - now
  }

  lemma ExactFrom(l: Limits, kept: seq<int>, now: int, calls: seq<Call>)
    requires |kept| <= l.limit && (kept != [] ==> now - l.windowMs < kept[0] <= now)
    requires Monotone(now, calls) && forall i :: 0 <= i < |calls| ==> calls[i].now < now + DelayOf(l, kept, now)
    ensures |Replies(l, kept, calls)| == |calls|
    ensures forall i :: 0 <= i < |calls| && calls[i].TryAcquire? ==> Replies(l, kept, calls)[i] == Allowed(false)
    ensures ReplyTo(l, Hits(l, kept, calls), TryAcquire(now + DelayOf(l, kept, now))) == Allowed(l.limit > 0)
  {
    if l.limit == 0 {
      FrozenRefuses(l, calls);
    } else if |kept| == l.limit {
      RefusedUntilDue(l, kept, now, calls);
      FirstIsPruned(kept, now + DelayOf(l, kept, now) - l.windowMs);
    } else {
      AnyCallIsLater(now, calls);
      assert calls == [];
      NothingToPrune(kept, now - l.windowMs);
    }
  }

  lemma AnyCallIsLater(now: int, calls: seq<Call>)
    requires Monotone(now, calls)
    ensures calls == [] || exists i :: 0 <= i < |calls| && calls[i].now >= now
  {
    if calls != [] {
      assert calls[0].now >= now;
    }
  }

  lemma {:induction false} FrozenRefuses(l: Limits, calls: seq<Call>)
    requires l.limit == 0
    ensures Hits(l, [], calls) == []
    ensures |Replies(l, [], calls)| == |calls|
    ensures forall i :: 0 <= i < |calls| && calls[i].TryAcquire? ==> Replies(l, [], calls)[i] == Allowed(false)
    decreases |calls|
  {
    if calls != [] {
      FrozenRefuses(l, calls[1..]);
      forall i | 0 <= i < |calls| && calls[i].TryAcquire? ensures Replies(l, [], calls)[i] == Allowed(false) {
        if i > 0 { assert calls[i] == calls[1..][i - 1]; }
      }
    }
  }

  lemma {:induction false} FirstIsPruned(hits: seq<int>, cutoff: int)
    requires hits != [] && hits[0] <= cutoff
    ensures |Pruned(hits, cutoff)| < |hits|
  {
    NeverGrows(hits[1..], cutoff);
  }

  lemma {:induction false} NeverGrows(hits: seq<int>, cutoff: int)
    ensures |Pruned(hits, cutoff)| <= |hits|
  {
    if hits != [] && hits[0] <= cutoff {
      NeverGrows(hits[1..], cutoff);
    }
  }

  // ------------------------------------------------------------------ what /stats shows

  /**
   * Asked for both figures at one time: the first counts what was accepted in the window that ends now, and the
   * second is zero if and only if that is below the limit.
   */
  lemma FiguresAreExact(l: Limits, hits: seq<int>, log: seq<int>, last: int, now: int)
    requires Refines(l, hits, log, last) && last <= now && (l.limit == 0 ==> log == [])
    ensures var used, asked := ReplyTo(l, hits, Used(now)).n, HitsAfter(l, hits, Used(now));
      && used == Within(log, now - l.windowMs, now) <= l.limit
      && (l.limit > 0 ==> (ReplyTo(l, asked, RetryAfter(now)).ms == 0 <==> used < l.limit))
  {
    var cutoff := now - l.windowMs;
    KeptIsNewer(l, hits, log, last, now);
    PrunedTwice(hits, cutoff, cutoff);
    hide Refines, Pruned, Newer, Within, Spaced, Sorted;
    NewerIsWithin(log, cutoff, now);
    KeptAfter(l, log, now);
    assert HitsAfter(l, hits, Used(now)) == Pruned(hits, cutoff);
  }
}
