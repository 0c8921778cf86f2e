/**
 * What each verdict of a funding sweep means, in balances and limits: one condition for every message the script
 * can end with, each of them met exactly when that message is the one.
 */
module FundingVerdicts {
  import opened Options
  import opened Sequences
  import opened FundingSweep

  // ------------------------------------------------------------------ conditions

  /** What the listed addresses lack to reach the target, taken together. */
  function LackOf(workers: seq<Address>, held: map<Address, nat>, target: nat): nat {
    if workers == [] then 0
    else
      var n := |workers| - 1;
      LackOf(workers[..n], held, target) + Lack(held, workers[n], target)
  }

  ghost predicate SomeBelow(workers: seq<Address>, held: map<Address, nat>, level: nat) {
    exists a :: a in workers && Balance(held, a) < level
  }

  /** The target lies above the floor, and sending it to an empty address stays within the cap. */
  ghost predicate InBand(l: Limits) { l.minBalance < l.target && CapIsSafe(l) }

  /** The run would be sent: there is something to send, within the cap of a run and with the reserve safe. */
  ghost predicate Sendable(l: Limits, workers: seq<Address>, c: Chain, maxFeePerGas: nat) {
    && InBand(l) && SomeBelow(workers, c.held, l.target) && LackOf(workers, c.held, l.target) <= l.maxPerRun
    && ReserveIsSafe(c, Plan(workers, c.held, l.target), maxFeePerGas, l.reserve)
  }

  /** `part` is what is left of `whole` when some elements are struck out. */
  ghost predicate Subsequence(part: seq<Address>, whole: seq<Address>)
    decreases |whole|
  {
    || part == []
    || (whole != [] && ((part[0] == whole[0] && Subsequence(part[1..], whole[1..])) || Subsequence(part, whole[1..])))
  }

  /** Every listing of an address below the level, no other, in the order of the list. */
  ghost predicate Lists(short: seq<Address>, workers: seq<Address>, held: map<Address, nat>, level: nat) {
    && Subsequence(short, workers)
    && forall a :: multiset(short)[a] == if Balance(held, a) < level then multiset(workers)[a] else 0
  }

  // ------------------------------------------------------------------ the plan

  lemma {:induction false} LackAppends(workers: seq<Address>, held: map<Address, nat>, target: nat)
    requires workers != []
    ensures LackOf(workers, held, target) == Lack(held, workers[0], target) + LackOf(workers[1..], held, target)
    decreases |workers|
  {
    var n := |workers| - 1;
    if n > 0 {
      LackAppends(workers[..n], held, target);
      assert workers[..n][1..] == workers[1..][..n - 1];
    }
  }

  lemma {:induction false} TotalIsLack(workers: seq<Address>, held: map<Address, nat>, target: nat)
    ensures Total(Plan(workers, held, target)) == LackOf(workers, held, target)
  {
    if workers != [] {
      TotalIsLack(workers[1..], held, target);
      LackAppends(workers, held, target);
      var rest := Plan(workers[1..], held, target);
      assert [] + rest == rest;
      assert ([Transfer(workers[0], Lack(held, workers[0], target))] + rest)[1..] == rest;
    }
  }

  lemma PlanIsEmpty(workers: seq<Address>, held: map<Address, nat>, target: nat)
    ensures Plan(workers, held, target) == [] <==> !SomeBelow(workers, held, target)
  {
    if Plan(workers, held, target) != [] { FirstIsShort(workers, held, target); }
    forall a | a in workers && Balance(held, a) < target ensures Plan(workers, held, target) != [] {
      PlanIsExact(workers, held, target, a);
    }
  }

  lemma CapIsTarget(l: Limits)
    ensures CapIsSafe(l) <==> l.target <= l.maxPerAddress
  {
    assert Lack(map[], 0, l.target) == l.target;
  }

  lemma GuardsAre(l: Limits, workers: seq<Address>, c: Chain, maxFeePerGas: nat)
    ensures var plan := Plan(workers, c.held, l.target);
      && (CapIsSafe(l) <==> l.target <= l.maxPerAddress)
      && (plan == [] <==> !SomeBelow(workers, c.held, l.target))
      && Total(plan) == LackOf(workers, c.held, l.target)
      && (ReserveIsSafe(c, plan, maxFeePerGas, l.reserve)
          <==> c.source >= Total(plan) + GasBudget(|plan|, maxFeePerGas) + l.reserve)
  {
    CapIsTarget(l);
    PlanIsEmpty(workers, c.held, l.target);
    TotalIsLack(workers, c.held, l.target);
    WalletGuardIsExact(c, Plan(workers, c.held, l.target), maxFeePerGas, l.reserve);
  }

  /** The wallet needs what the addresses lack, 21000 gas a transfer at the estimated price, and the reserve. */
  lemma WalletNeeds(l: Limits, workers: seq<Address>, c: Chain, maxFeePerGas: nat)
    ensures ReserveIsSafe(c, Plan(workers, c.held, l.target), maxFeePerGas, l.reserve)
      <==> c.source >= LackOf(workers, c.held, l.target)
                       + |Short(workers, c.held, l.target)| * 21_000 * maxFeePerGas + l.reserve
  {
    GuardsAre(l, workers, c, maxFeePerGas);
    PlanIsAsLong(workers, c.held, l.target);
    hide Plan, ReserveIsSafe, Total, LackOf, Short;
  }

  lemma {:induction false} PlanIsAsLong(workers: seq<Address>, held: map<Address, nat>, target: nat)
    ensures |Plan(workers, held, target)| == |Short(workers, held, target)|
  {
    if workers != [] { PlanIsAsLong(workers[1..], held, target); }
  }

  // ------------------------------------------------------------------ runs that send nothing

  /**
   * The verdicts of a run that sends nothing, one condition each: a bad target, a target above the cap, nothing to do,
   * too much for one run, too little in the wallet, a dry run. Such a run changes no balance.
   */
  lemma RefusalsAreExact(l: Limits, workers: seq<Address>, c: Chain, maxFeePerGas: nat, dryRun: bool, os: seq<Outcome>)
    requires |os| == |Plan(workers, c.held, l.target)|
    ensures var (v, after) := Swept(l, workers, c, maxFeePerGas, dryRun, os);
      var plan := Plan(workers, c.held, l.target);
      && (v == Refused(TargetNotAboveFloor) <==> l.target <= l.minBalance)
      && (v == Refused(TargetAboveCap) <==> l.minBalance < l.target && !CapIsSafe(l))
      && (v == NothingShort <==> InBand(l) && !SomeBelow(workers, c.held, l.target))
      && (v == Refused(RunAboveCap) <==>
            InBand(l) && SomeBelow(workers, c.held, l.target) && LackOf(workers, c.held, l.target) > l.maxPerRun)
      && (v == Refused(WalletTooLow) <==>
            InBand(l) && SomeBelow(workers, c.held, l.target) && LackOf(workers, c.held, l.target) <= l.maxPerRun
            && !ReserveIsSafe(c, plan, maxFeePerGas, l.reserve))
      && (v == DryRun <==> Sendable(l, workers, c, maxFeePerGas) && dryRun)
      && (v.Refused? || v.NothingShort? || v.DryRun? <==> !(Sendable(l, workers, c, maxFeePerGas) && !dryRun))
      && (v.Refused? || v.NothingShort? || v.DryRun? ==> after == c)
  {
    GuardsAre(l, workers, c, maxFeePerGas);
    hide Plan, CapIsSafe, SomeBelow, LackOf, ReserveIsSafe, GasBudget, Total, Sent, Short;
  }

  // ------------------------------------------------------------------ runs that send

  lemma {:induction false} ShortFollows(workers: seq<Address>, held: map<Address, nat>, level: nat)
    ensures Subsequence(Short(workers, held, level), workers)
  {
    if workers != [] {
      ShortFollows(workers[1..], held, level);
      var rest := Short(workers[1..], held, level);
      assert [] + rest == rest;
      assert ([workers[0]] + rest)[1..] == rest;
    }
  }

  lemma {:induction false} ShortCounts(workers: seq<Address>, held: map<Address, nat>, level: nat, a: Address)
    ensures multiset(Short(workers, held, level))[a] == if Balance(held, a) < level then multiset(workers)[a] else 0
  {
    if workers != [] {
      ShortCounts(workers[1..], held, level, a);
      assert workers == [workers[0]] + workers[1..];
    }
  }

  lemma ShortLists(workers: seq<Address>, held: map<Address, nat>, level: nat)
    ensures Lists(Short(workers, held, level), workers, held, level)
  {
    ShortFollows(workers, held, level);
    forall a
      ensures multiset(Short(workers, held, level))[a] == if Balance(held, a) < level then multiset(workers)[a] else 0
    {
      ShortCounts(workers, held, level, a);
    }
  }

  function Recipients(plan: seq<Transfer>): seq<Address> {
    if plan == [] then [] else [plan[0].to] + Recipients(plan[1..])
  }

  lemma {:induction false} RecipientsAreShort(workers: seq<Address>, held: map<Address, nat>, target: nat)
    ensures Recipients(Plan(workers, held, target)) == Short(workers, held, target)
    ensures forall t :: t in Plan(workers, held, target) ==> t.top == Lack(held, t.to, target)
  {
    if workers != [] {
      RecipientsAreShort(workers[1..], held, target);
      var rest := Plan(workers[1..], held, target);
      assert [] + rest == rest;
      assert ([Transfer(workers[0], Lack(held, workers[0], target))] + rest)[1..] == rest;
    }
  }

  /** The transfers of a run: one for every listing below the target, in the order of the list, for what it lacks. */
  lemma PlanFollowsList(workers: seq<Address>, held: map<Address, nat>, target: nat)
    ensures Lists(Recipients(Plan(workers, held, target)), workers, held, target)
    ensures forall t :: t in Plan(workers, held, target) ==> t.top == Lack(held, t.to, target)
  {
    RecipientsAreShort(workers, held, target);
    ShortLists(workers, held, target);
  }

  lemma ListedIsBelow(short: seq<Address>, workers: seq<Address>, held: map<Address, nat>, level: nat)
    requires Lists(short, workers, held, level)
    ensures short == [] <==> !SomeBelow(workers, held, level)
  {
    if short != [] {
      assert short[0] in multiset(short);
      assert short[0] in multiset(workers);
    }
    forall a | a in workers && Balance(held, a) < level ensures short != [] {
      assert a in multiset(workers);
      assert multiset(short)[a] > 0;
    }
  }

  /** With fees within the estimate a run that sends leaves the reserve. */
  lemma SendsKeepReserve(l: Limits, workers: seq<Address>, c: Chain, maxFeePerGas: nat, os: seq<Outcome>)
    requires |os| == |Plan(workers, c.held, l.target)| && FeesWithin(os, maxFeePerGas)
    requires Sendable(l, workers, c, maxFeePerGas)
    ensures Sent(c, Plan(workers, c.held, l.target), os).source >= l.reserve
  {
  }

  /**
   * The verdicts of a run that does send: it is interrupted exactly when some transfer has no receipt; otherwise it
   * reports the reserve if that was broken, which needs fees beyond the estimate; otherwise it names the listings that
   * are still below the level asked for, or has none and says so.
   */
  lemma OutcomesAreExact(l: Limits, workers: seq<Address>, c: Chain, maxFeePerGas: nat, os: seq<Outcome>)
    requires |os| == |Plan(workers, c.held, l.target)| && Sendable(l, workers, c, maxFeePerGas)
    ensures var (v, after) := Swept(l, workers, c, maxFeePerGas, false, os);
      var throws := exists i :: 0 <= i < |os| && os[i].Throws?;
      && (v == Interrupted <==> throws)
      && (v == BelowReserve <==> !throws && after.source < l.reserve)
      && (v.StillShort? <==> !throws && after.source >= l.reserve && SomeBelow(workers, after.held, l.fundedAt))
      && (v.StillShort? ==> Lists(v.short, workers, after.held, l.fundedAt))
      && (v == Funded <==> !throws && after.source >= l.reserve && !SomeBelow(workers, after.held, l.fundedAt))
      && (FeesWithin(os, maxFeePerGas) ==> after.source >= l.reserve)
  {
    GuardsAre(l, workers, c, maxFeePerGas);
    if FeesWithin(os, maxFeePerGas) { SendsKeepReserve(l, workers, c, maxFeePerGas, os); }
    var after := Sent(c, Plan(workers, c.held, l.target), os);
    hide Plan, CapIsSafe, LackOf, ReserveIsSafe, GasBudget, Total, Sent, Short, Lists, SomeBelow;
    ShortLists(workers, after.held, l.fundedAt);
    ListedIsBelow(Short(workers, after.held, l.fundedAt), workers, after.held, l.fundedAt);
  }

  // ------------------------------------------------------------------ what arrives

  /** What reached `a`: the transfers to it that were mined and succeeded, up to the one without a receipt. */
  function Landed(plan: seq<Transfer>, os: seq<Outcome>, a: Address): nat
    requires |os| <= |plan|
    decreases |os|
  {
    if os == [] then 0
    else
      var arrived := os[0].success && (os[0].Mined? || os[0].mined);
      (if plan[0].to == a && arrived then plan[0].top else 0)
      + (if os[0].Throws? then 0 else Landed(plan[1..], os[1..], a))
  }

  /** However the transfers are answered, an address holds what it held and what reached it. */
  lemma {:induction false} PaidExactly(c: Chain, plan: seq<Transfer>, os: seq<Outcome>, a: Address)
    requires |os| <= |plan|
    ensures Balance(Sent(c, plan, os).held, a) == Balance(c.held, a) + Landed(plan, os, a)
    decreases |os|
  {
    if os != [] && os[0].Mined? { PaidExactly(Answered(c, plan[0], os[0]), plan[1..], os[1..], a); }
  }

  // ------------------------------------------------------------------ the two callers

  /** The limits of a run: a caller that names a top-up asks to find it everywhere, the schedule asks for the floor. */
  function LimitsFor(minBalance: nat, usualTopUp: nat, requested: Option<nat>, maxPerAddress: nat, maxPerRun: nat,
      reserve: nat): Limits
  {
    var target := if requested.Some? then requested.value else usualTopUp;
    Limits(minBalance, target, maxPerAddress, maxPerRun, reserve, if requested.Some? then target else minBalance)
  }

  /**
   * What `funded` promises the two callers: the one that named a top-up finds at least that much on every address;
   * after a scheduled run no address is below the floor the service leases against. Either way it is reported
   * whenever every transfer of a run over distinct addresses succeeds.
   */
  lemma FundedMeans(minBalance: nat, usualTopUp: nat, requested: Option<nat>, maxPerAddress: nat, maxPerRun: nat,
      reserve: nat, workers: seq<Address>, c: Chain, maxFeePerGas: nat, os: seq<Outcome>)
    requires var l := LimitsFor(minBalance, usualTopUp, requested, maxPerAddress, maxPerRun, reserve);
      |os| == |Plan(workers, c.held, l.target)| && FeesWithin(os, maxFeePerGas)
      && Sendable(l, workers, c, maxFeePerGas)
    ensures var l := LimitsFor(minBalance, usualTopUp, requested, maxPerAddress, maxPerRun, reserve);
      var (v, after) := Swept(l, workers, c, maxFeePerGas, false, os);
      && (v == Funded ==>
            !SomeBelow(workers, after.held, if requested.Some? then requested.value else minBalance))
      && (Distinct(workers) && AllSucceed(os) ==>
            v == Funded && !SomeBelow(workers, after.held, if requested.Some? then requested.value else usualTopUp))
  {
    var l := LimitsFor(minBalance, usualTopUp, requested, maxPerAddress, maxPerRun, reserve);
    OutcomesAreExact(l, workers, c, maxFeePerGas, os);
    RefusalsAreExact(l, workers, c, maxFeePerGas, false, os);
    GuardsAre(l, workers, c, maxFeePerGas);
    if Distinct(workers) && AllSucceed(os) { SweepFunds(l, workers, c, maxFeePerGas, os); }
  }
}
