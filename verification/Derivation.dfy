/**
 * `ensureAddresses`: the memoized promise of the address derivation. Attempts are numbered; the
 * field `ready` holds the promise of one of them, or nothing.
 */
module Derivation {
  import opened Options

  type Attempt = nat

  /** `settled[a]` says how attempt `a` ended; attempts below `started` have begun. */
  datatype Memo = Memo(ready: Option<Attempt>, started: nat, settled: map<Attempt, bool>)

  /** A caller asks for the addresses, or an attempt under way ends. */
  datatype Event = Call | Ends(attempt: Attempt, succeeded: bool)

  const FRESH := Memo(None, 0, map[])

  predicate InFlight(m: Memo, a: Attempt) { a < m.started && a !in m.settled }

  predicate Enabled(m: Memo, e: Event) { e.Ends? ==> InFlight(m, e.attempt) }

  /** The promise a call returns. */
  function Promised(m: Memo): Attempt { if m.ready.Some? then m.ready.value else m.started }

  function After(m: Memo, e: Event): Memo {
    match e
    case Call => if m.ready.Some? then m else Memo(Some(m.started), m.started + 1, m.settled)
    case Ends(a, ok) => Memo(if ok then m.ready else None, m.started, m.settled[a := ok])
  }

  class AddressMemo {
    var ready: Option<Attempt>
    ghost var model: Memo

    ghost predicate Valid()
      reads this
    {
      ready == model.ready && Sound(model)
    }

    constructor ()
      ensures Valid() && model == FRESH
    {
      ready, model := None, FRESH;
    }

    /** `attempt` numbers the derivation that begins if none is remembered. */
    method EnsureAddresses(attempt: Attempt) returns (promise: Attempt)
      requires Valid() && attempt == model.started
      modifies this
      ensures Valid() && model == After(old(model), Call) && promise == Promised(old(model))
    {
      StepIsSound(model, Call);
      if ready.None? { ready := Some(attempt); }
      model := After(model, Call);
      return ready.value;
    }

    /** The derivation resolves, or its `catch` forgets it and rejects. */
    method OnEnd(attempt: Attempt, succeeded: bool)
      requires Valid() && Enabled(model, Ends(attempt, succeeded))
      modifies this
      ensures Valid() && model == After(old(model), Ends(attempt, succeeded))
    {
      StepIsSound(model, Ends(attempt, succeeded));
      if !succeeded { ready := None; }
      model := After(model, Ends(attempt, succeeded));
    }
  }

  /**
   * Only the newest attempt can be under way, and it is the one remembered; a remembered attempt is under way or
   * has succeeded; every forgotten one has failed.
   */
  ghost predicate Sound(m: Memo) {
    && (forall a :: a in m.settled ==> a < m.started)
    && (m.ready.Some? ==> m.started > 0 && m.ready.value == m.started - 1)
    && (m.ready.Some? && m.ready.value in m.settled ==> m.settled[m.ready.value])
    && (forall a: Attempt :: a < m.started && m.ready != Some(a) ==> a in m.settled && !m.settled[a])
  }

  lemma StepIsSound(m: Memo, e: Event)
    requires Sound(m) && Enabled(m, e)
    ensures Sound(After(m, e))
  {
  }

  predicate Possible(m: Memo, es: seq<Event>)
    decreases |es|
  {
    es == [] || (Enabled(m, es[0]) && Possible(After(m, es[0]), es[1..]))
  }

  function Final(m: Memo, es: seq<Event>): Memo
    decreases |es|
  {
    if es == [] then m else Final(After(m, es[0]), es[1..])
  }

  lemma {:induction false} RunIsSound(m: Memo, es: seq<Event>)
    requires Sound(m) && Possible(m, es)
    ensures Sound(Final(m, es))
    decreases |es|
  {
    if es != [] {
      StepIsSound(m, es[0]);
      RunIsSound(After(m, es[0]), es[1..]);
    }
  }

  /**
   * In every run, however the callers interleave: two attempts are never under way together, whoever calls while
   * one is gets that one, and a call starts a new attempt if and only if all earlier ones failed.
   */
  lemma DerivesOnce(es: seq<Event>, a: Attempt, b: Attempt)
    requires Possible(FRESH, es)
    ensures var m := Final(FRESH, es);
      && (InFlight(m, a) && InFlight(m, b) ==> a == b)
      && (InFlight(m, a) ==> Promised(m) == a)
      && (After(m, Call).started > m.started
          <==> forall k: Attempt :: k < m.started ==> k in m.settled && !m.settled[k])
  {
    RunIsSound(FRESH, es);
    var m := Final(FRESH, es);
    if m.ready.Some? { assert m.ready.value < m.started; }
  }

  /** Once an attempt succeeds no other is ever made, and every later caller gets its result. */
  lemma {:induction false} SuccessIsKept(m: Memo, es: seq<Event>, a: Attempt)
    requires Sound(m) && Possible(m, es) && a in m.settled && m.settled[a]
    ensures var d := Final(m, es); d.started == m.started && d.ready == Some(a) && Promised(d) == a
    decreases |es|
  {
    assert m.ready == Some(a);
    if es != [] {
      StepIsSound(m, es[0]);
      SuccessIsKept(After(m, es[0]), es[1..], a);
    }
  }

  /** A caller gets an attempt that is under way or has succeeded, never one that is known to have failed. */
  lemma NobodyGetsAFailure(es: seq<Event>)
    requires Possible(FRESH, es)
    ensures var m := Final(FRESH, es); var a := Promised(m); var d := After(m, Call);
      && a < d.started && d.ready == Some(a) && Promised(d) == a
      && (InFlight(d, a) || (a in d.settled && d.settled[a]))
  {
    RunIsSound(FRESH, es);
    StepIsSound(Final(FRESH, es), Call);
  }
}
