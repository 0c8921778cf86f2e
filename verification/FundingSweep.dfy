/**
 * The decide, send and verify parts of the funding sweep: which addresses are topped up and by
 * how much, the guards before any money moves, and what the wallet and the addresses hold at
 * every point of the send loop. Amounts are in wei.
 */
module FundingSweep {
  import opened Integers
  import opened Options
  import opened Sequences

  type Address = nat

  /** The gas of a value transfer to an account with no code. */
  const PLAIN_TRANSFER_GAS: nat := 21_000

  datatype Limits = Limits(minBalance: nat, target: nat, maxPerAddress: nat, maxPerRun: nat, reserve: nat,
    fundedAt: nat)

  datatype Transfer = Transfer(to: Address, top: nat)

  /** What the funding wallet and every other address hold. */
  datatype Chain = Chain(source: int, held: map<Address, nat>)

  /**
   * How the node answers one transfer: mined with a receipt, or no receipt (the send or the wait throws), in
   * which case it may be mined all the same, and succeed or revert.
   */
  datatype Outcome = Mined(success: bool, fee: nat) | Throws(mined: bool, success: bool, fee: nat)

  datatype Guard = TargetNotAboveFloor | TargetAboveCap | RunAboveCap | WalletTooLow

  datatype Verdict = Refused(guard: Guard) | NothingShort | DryRun | Interrupted | BelowReserve
    | StillShort(short: seq<Address>) | Funded

  // ------------------------------------------------------------------ the plan

  function Balance(held: map<Address, nat>, a: Address): nat { if a in held then held[a] else 0 }

  function Plan(workers: seq<Address>, held: map<Address, nat>, target: nat): seq<Transfer> {
    if workers == [] then []
    else
      var w := workers[0];
      var here := if Balance(held, w) < target then [Transfer(w, target - Balance(held, w))] else [];
      here + Plan(workers[1..], held, target)
  }

  function Total(plan: seq<Transfer>): nat {
    if plan == [] then 0 else plan[0].top + Total(plan[1..])
  }

  function Short(workers: seq<Address>, held: map<Address, nat>, level: nat): seq<Address> {
    if workers == [] then []
    else (if Balance(held, workers[0]) < level then [workers[0]] else []) + Short(workers[1..], held, level)
  }

  function GasBudget(transfers: nat, maxFeePerGas: nat): nat { transfers * PLAIN_TRANSFER_GAS * maxFeePerGas }

  lemma OneLess(transfers: nat, maxFeePerGas: nat)
    requires transfers > 0
    ensures GasBudget(transfers, maxFeePerGas)
      == PLAIN_TRANSFER_GAS * maxFeePerGas + GasBudget(transfers - 1, maxFeePerGas)
  {
    assert transfers * PLAIN_TRANSFER_GAS * maxFeePerGas
      == PLAIN_TRANSFER_GAS * maxFeePerGas + (transfers - 1) * PLAIN_TRANSFER_GAS * maxFeePerGas;
  }

  /** The first guard that stops the run, in the order the script checks them. */
  function Stops(l: Limits, plan: seq<Transfer>, source: int, maxFeePerGas: nat, dryRun: bool): Option<Verdict> {
    if l.target <= l.minBalance then Some(Refused(TargetNotAboveFloor))
    else if l.target > l.maxPerAddress then Some(Refused(TargetAboveCap))
    else if plan == [] then Some(NothingShort)
    else if Total(plan) > l.maxPerRun then Some(Refused(RunAboveCap))
    else if source < Total(plan) + GasBudget(|plan|, maxFeePerGas) + l.reserve then Some(Refused(WalletTooLow))
    else if dryRun then Some(DryRun)
    else None
  }

  // ------------------------------------------------------------------ the sends

  function Paid(c: Chain, t: Transfer, fee: nat): Chain {
    Chain(c.source - t.top - fee, c.held[t.to := Balance(c.held, t.to) + t.top])
  }

  function Answered(c: Chain, t: Transfer, o: Outcome): Chain {
    if o.Throws? && !o.mined then c
    else if o.success then Paid(c, t, o.fee)
    else c.(source := c.source - o.fee)
  }

  /** The chain after the answers `os` to the first transfers of the plan; a throw ends the loop. */
  function Sent(c: Chain, plan: seq<Transfer>, os: seq<Outcome>): Chain
    requires |os| <= |plan|
    decreases |os|
  {
    if os == [] then c
    else if os[0].Throws? then Answered(c, plan[0], os[0])
    else Sent(Answered(c, plan[0], os[0]), plan[1..], os[1..])
  }

  predicate Completes(os: seq<Outcome>) { forall i :: 0 <= i < |os| ==> os[i].Mined? }

  /** What the script reports once the loop is over. */
  function Checked(l: Limits, workers: seq<Address>, c: Chain): Verdict {
    if c.source < l.reserve then BelowReserve
    else
      var short := Short(workers, c.held, l.fundedAt);
      if short != [] then StillShort(short) else Funded
  }

  /** One run of the script; `outcomes` answers the transfers in turn. */
  function Swept(l: Limits, workers: seq<Address>, c: Chain, maxFeePerGas: nat, dryRun: bool, outcomes: seq<Outcome>)
    : (r: (Verdict, Chain))
    requires |outcomes| == |Plan(workers, c.held, l.target)|
  {
    var plan := Plan(workers, c.held, l.target);
    match Stops(l, plan, c.source, maxFeePerGas, dryRun)
    case Some(v) => (v, c)
    case None =>
      var after := Sent(c, plan, outcomes);
      (if Completes(outcomes) then Checked(l, workers, after) else Interrupted, after)
  }

  /** The fee of every mined transfer stays within the estimate the budget was made from. */
  predicate FeesWithin(os: seq<Outcome>, maxFeePerGas: nat) {
    forall i :: 0 <= i < |os| ==> os[i].fee <= PLAIN_TRANSFER_GAS * maxFeePerGas
  }

  // ------------------------------------------------------------------ the script

  method CheckGuards(l: Limits, plan: seq<Transfer>, source: int, maxFeePerGas: nat, dryRun: bool)
    returns (stop: Option<Verdict>)
    ensures stop == Stops(l, plan, source, maxFeePerGas, dryRun)
    ensures stop.None? <==>
      && !dryRun && plan != [] && l.minBalance < l.target <= l.maxPerAddress && Total(plan) <= l.maxPerRun
      && source >= l.reserve + Total(plan) + GasBudget(|plan|, maxFeePerGas)
  {
    if l.target <= l.minBalance { return Some(Refused(TargetNotAboveFloor)); }
    if l.target > l.maxPerAddress { return Some(Refused(TargetAboveCap)); }
    if |plan| == 0 { return Some(NothingShort); }
    var total := Total(plan);
    if total > l.maxPerRun { return Some(Refused(RunAboveCap)); }
    var required := total + GasBudget(|plan|, maxFeePerGas) + l.reserve;
    if source < required { return Some(Refused(WalletTooLow)); }
    if dryRun { return Some(DryRun); }
    return None;
  }

  /**
   * The send loop. The wallet never holds less than the reserve plus what the rest of the loop may cost, so
   * the reserve holds after every single transfer, reverted and lost ones included.
   */
  method SendAll(plan: seq<Transfer>, c: Chain, maxFeePerGas: nat, reserve: nat, outcomes: seq<Outcome>)
    returns (completed: bool, after: Chain)
    requires |outcomes| == |plan| && FeesWithin(outcomes, maxFeePerGas)
    requires c.source >= reserve + Total(plan) + GasBudget(|plan|, maxFeePerGas)
    ensures completed <==> Completes(outcomes)
    ensures after == Sent(c, plan, outcomes) && after.source >= reserve
  {
    after := c;
    var i := 0;
    while i < |plan|
      invariant 0 <= i <= |plan|
      invariant forall k :: 0 <= k < i ==> outcomes[k].Mined?
      invariant Sent(c, plan, outcomes) == Sent(after, plan[i..], outcomes[i..])
      invariant after.source >= reserve + Total(plan[i..]) + GasBudget(|plan| - i, maxFeePerGas)
    {
      assert plan[i..][1..] == plan[i + 1..] && outcomes[i..][1..] == outcomes[i + 1..];
      OneLess(|plan| - i, maxFeePerGas);
      after := Answered(after, plan[i], outcomes[i]);
      if outcomes[i].Throws? { return false, after; }
      i := i + 1;
    }
    return true, after;
  }

  method Run(l: Limits, workers: seq<Address>, c: Chain, maxFeePerGas: nat, dryRun: bool, outcomes: seq<Outcome>)
    returns (verdict: Verdict, after: Chain)
    requires |outcomes| == |Plan(workers, c.held, l.target)| && FeesWithin(outcomes, maxFeePerGas)
    ensures (verdict, after) == Swept(l, workers, c, maxFeePerGas, dryRun, outcomes)
    ensures after != c ==> after.source >= l.reserve
  {
    var plan := Plan(workers, c.held, l.target);
    var stop := CheckGuards(l, plan, c.source, maxFeePerGas, dryRun);
    if stop.Some? { return stop.value, c; }
    var completed;
    completed, after := SendAll(plan, c, maxFeePerGas, l.reserve, outcomes);
    if !completed { return Interrupted, after; }
    if after.source < l.reserve { return BelowReserve, after; }
    var short := Short(workers, after.held, l.fundedAt);
    if |short| > 0 { return StillShort(short), after; }
    return Funded, after;
  }

  // ------------------------------------------------------------------ the reserve, at every point

  /**
   * After any number of answers, reverts and lost transactions included, the wallet still holds the reserve and
   * what all the transfers not yet answered may cost.
   */
  lemma {:induction false} ReserveThroughout(c: Chain, plan: seq<Transfer>, os: seq<Outcome>, maxFeePerGas: nat,
      reserve: nat)
    requires |os| <= |plan| && FeesWithin(os, maxFeePerGas)
    requires c.source >= reserve + Total(plan) + GasBudget(|plan|, maxFeePerGas)
    ensures Sent(c, plan, os).source >= reserve + Total(plan[|os|..]) + GasBudget(|plan| - |os|, maxFeePerGas)
    decreases |os|
  {
    if os != [] {
      OneLess(|plan|, maxFeePerGas);
      var next := Answered(c, plan[0], os[0]);
      assert plan[|os|..] == plan[1..][|os[1..]|..];
      assert FeesWithin(os[1..], maxFeePerGas);
      ReserveThroughout(next, plan[1..], os[1..], maxFeePerGas, reserve);
      if os[0].Throws? { TailCostsLess(plan[1..], |os| - 1, maxFeePerGas); }
    }
  }

  lemma {:induction false} TailCostsLess(plan: seq<Transfer>, k: nat, maxFeePerGas: nat)
    requires k <= |plan|
    ensures Total(plan[k..]) + GasBudget(|plan| - k, maxFeePerGas) <= Total(plan) + GasBudget(|plan|, maxFeePerGas)
    decreases k
  {
    if k > 0 {
      OneLess(|plan|, maxFeePerGas);
      TailCostsLess(plan[1..], k - 1, maxFeePerGas);
      assert plan[k..] == plan[1..][k - 1..];
      assert PLAIN_TRANSFER_GAS * maxFeePerGas >= 0;
    } else {
      assert plan[0..] == plan;
    }
  }

  /** Every transfer mined at the full estimate. */
  function Costliest(n: nat, maxFeePerGas: nat): (os: seq<Outcome>)
    ensures |os| == n && AllSucceed(os) && FeesWithin(os, maxFeePerGas)
  {
    if n == 0 then [] else [Mined(true, PLAIN_TRANSFER_GAS * maxFeePerGas)] + Costliest(n - 1, maxFeePerGas)
  }

  lemma {:induction false} CostliestSpends(c: Chain, plan: seq<Transfer>, maxFeePerGas: nat)
    ensures Sent(c, plan, Costliest(|plan|, maxFeePerGas)).source
      == c.source - Total(plan) - GasBudget(|plan|, maxFeePerGas)
    decreases |plan|
  {
    var os := Costliest(|plan|, maxFeePerGas);
    if plan != [] {
      OneLess(|plan|, maxFeePerGas);
      assert os[1..] == Costliest(|plan| - 1, maxFeePerGas);
      CostliestSpends(Answered(c, plan[0], os[0]), plan[1..], maxFeePerGas);
    }
  }

  /** The reserve survives the send loop however its transfers are answered and wherever it ends. */
  ghost predicate ReserveIsSafe(c: Chain, plan: seq<Transfer>, maxFeePerGas: nat, reserve: nat) {
    forall os :: |os| <= |plan| && FeesWithin(os, maxFeePerGas) ==> Sent(c, plan, os).source >= reserve
  }

  /** The wallet guard asks for what keeps the reserve, and for no more than that. */
  lemma WalletGuardIsExact(c: Chain, plan: seq<Transfer>, maxFeePerGas: nat, reserve: nat)
    ensures ReserveIsSafe(c, plan, maxFeePerGas, reserve)
      <==> c.source >= Total(plan) + GasBudget(|plan|, maxFeePerGas) + reserve
  {
    CostliestSpends(c, plan, maxFeePerGas);
    if c.source >= Total(plan) + GasBudget(|plan|, maxFeePerGas) + reserve {
      forall os | |os| <= |plan| && FeesWithin(os, maxFeePerGas) ensures Sent(c, plan, os).source >= reserve {
        ReserveThroughout(c, plan, os, maxFeePerGas, reserve);
      }
    }
  }

  /** The most a run can send to any one address of a list without duplicates, whatever the balances are. */
  ghost predicate CapIsSafe(l: Limits) {
    forall held: map<Address, nat>, a: Address :: Lack(held, a, l.target) <= l.maxPerAddress
  }

  /**
   * Money moves if and only if the target lies above the floor, some address is below it, no address could be
   * sent more than the cap at once, the run is within its cap, and the reserve survives every possible answer.
   */
  lemma SendsExactlyWhenSafe(l: Limits, workers: seq<Address>, c: Chain, maxFeePerGas: nat, dryRun: bool)
    ensures var plan := Plan(workers, c.held, l.target);
      Stops(l, plan, c.source, maxFeePerGas, dryRun).None?
      <==> !dryRun && l.minBalance < l.target && (exists a :: a in workers && Balance(c.held, a) < l.target)
           && CapIsSafe(l) && Total(plan) <= l.maxPerRun && ReserveIsSafe(c, plan, maxFeePerGas, l.reserve)
  {
    var plan := Plan(workers, c.held, l.target);
    WalletGuardIsExact(c, plan, maxFeePerGas, l.reserve);
    assert Lack(map[], 0, l.target) == l.target;
    if plan != [] {
      FirstIsShort(workers, c.held, l.target);
    }
    forall a | a in workers && Balance(c.held, a) < l.target ensures plan != [] {
      PlanIsExact(workers, c.held, l.target, a);
    }
  }

  lemma {:induction false} FirstIsShort(workers: seq<Address>, held: map<Address, nat>, target: nat)
    requires Plan(workers, held, target) != []
    ensures var a := Plan(workers, held, target)[0].to; a in workers && Balance(held, a) < target
  {
    if Balance(held, workers[0]) >= target {
      assert [] + Plan(workers[1..], held, target) == Plan(workers[1..], held, target);
      FirstIsShort(workers[1..], held, target);
    }
  }

  // ------------------------------------------------------------------ conservation

  function HeldBy(addrs: seq<Address>, held: map<Address, nat>): nat {
    if addrs == [] then 0 else Balance(held, addrs[0]) + HeldBy(addrs[1..], held)
  }

  /** The fees the run pays. */
  function Fees(os: seq<Outcome>): nat {
    if os == [] then 0
    else if os[0].Throws? then (if os[0].mined then os[0].fee else 0)
    else os[0].fee + Fees(os[1..])
  }

  lemma {:induction false} PaidToOne(addrs: seq<Address>, held: map<Address, nat>, to: Address, amount: nat)
    requires Distinct(addrs)
    ensures HeldBy(addrs, held[to := Balance(held, to) + amount])
      == HeldBy(addrs, held) + (if to in addrs then amount else 0)
  {
    if addrs != [] {
      assert Distinct(addrs[1..]) && addrs[0] !in addrs[1..];
      PaidToOne(addrs[1..], held, to, amount);
    }
  }

  /** Nothing is lost: what leaves the wallet is on the addresses or was paid in fees. */
  lemma {:induction false} SweepConserves(c: Chain, plan: seq<Transfer>, os: seq<Outcome>, addrs: seq<Address>)
    requires |os| <= |plan| && Distinct(addrs) && forall i :: 0 <= i < |plan| ==> plan[i].to in addrs
    ensures var d := Sent(c, plan, os);
      d.source + HeldBy(addrs, d.held) + Fees(os) == c.source + HeldBy(addrs, c.held)
    decreases |os|
  {
    if os != [] {
      PaidToOne(addrs, c.held, plan[0].to, plan[0].top);
      if os[0].Mined? { SweepConserves(Answered(c, plan[0], os[0]), plan[1..], os[1..], addrs); }
    }
  }

  // ------------------------------------------------------------------ what the addresses end with

  /** What the plan sends to `a` in all. */
  function TopsTo(plan: seq<Transfer>, a: Address): nat {
    if plan == [] then 0 else (if plan[0].to == a then plan[0].top else 0) + TopsTo(plan[1..], a)
  }

  function TimesIn(plan: seq<Transfer>, a: Address): nat {
    if plan == [] then 0 else (if plan[0].to == a then 1 else 0) + TimesIn(plan[1..], a)
  }

  predicate AllSucceed(os: seq<Outcome>) { forall i :: 0 <= i < |os| ==> os[i].Mined? && os[i].success }

  lemma {:induction false} SuccessPays(c: Chain, plan: seq<Transfer>, os: seq<Outcome>, a: Address)
    requires |os| == |plan| && AllSucceed(os)
    ensures Balance(Sent(c, plan, os).held, a) == Balance(c.held, a) + TopsTo(plan, a)
    decreases |os|
  {
    if os != [] { SuccessPays(Answered(c, plan[0], os[0]), plan[1..], os[1..], a); }
  }

  /** What `a` lacks to reach the target. */
  function Lack(held: map<Address, nat>, a: Address, target: nat): nat {
    if Balance(held, a) < target then target - Balance(held, a) else 0
  }

  /** How often an address below the target is listed; an address at the target counts for nothing. */
  function TimesShort(workers: seq<Address>, held: map<Address, nat>, target: nat, a: Address): nat {
    if Balance(held, a) < target then multiset(workers)[a] else 0
  }

  lemma FirstTop(workers: seq<Address>, held: map<Address, nat>, target: nat, a: Address)
    requires workers != []
    ensures var plan, rest := Plan(workers, held, target), Plan(workers[1..], held, target);
      var here := if workers[0] == a && Balance(held, a) < target then 1 else 0;
      && TimesIn(plan, a) == here + TimesIn(rest, a)
      && TopsTo(plan, a) == (if here == 1 then Lack(held, a, target) else 0) + TopsTo(rest, a)
  {
    var rest := Plan(workers[1..], held, target);
    assert [] + rest == rest;
    var first := Transfer(workers[0], Lack(held, workers[0], target));
    assert ([first] + rest)[1..] == rest;
  }

  lemma FirstListing(workers: seq<Address>, held: map<Address, nat>, target: nat, a: Address)
    requires workers != []
    ensures TimesShort(workers, held, target, a)
      == (if workers[0] == a && Balance(held, a) < target then 1 else 0) + TimesShort(workers[1..], held, target, a)
  {
    assert workers == [workers[0]] + workers[1..];
  }

  function Times(n: nat, lack: nat): nat { n * lack }

  lemma OneMore(n: nat, lack: nat)
    ensures Times(1 + n, lack) == lack + Times(n, lack) && Times(0, lack) == 0
  {
  }

  /** Every listing of an address below the target, and nothing else, is a transfer of all that it lacks. */
  lemma {:induction false} PlanIsExact(workers: seq<Address>, held: map<Address, nat>, target: nat, a: Address)
    ensures var plan, n := Plan(workers, held, target), TimesShort(workers, held, target, a);
      && TimesIn(plan, a) == n && TopsTo(plan, a) == Times(n, Lack(held, a, target))
      && (n > 0 <==> a in workers && Balance(held, a) < target)
      && (n > 0 ==> plan != [])
  {
    if workers != [] {
      PlanIsExact(workers[1..], held, target, a);
      hide Plan, TimesIn, TopsTo, TimesShort, Times;
      FirstTop(workers, held, target, a);
      FirstListing(workers, held, target, a);
      OneMore(TimesShort(workers[1..], held, target, a), Lack(held, a, target));
    }
  }

  /** When every transfer succeeds, each listing of an address adds what the address lacked. */
  lemma ReceivesExactly(workers: seq<Address>, c: Chain, target: nat, os: seq<Outcome>, a: Address)
    requires |os| == |Plan(workers, c.held, target)| && AllSucceed(os)
    ensures Balance(Sent(c, Plan(workers, c.held, target), os).held, a)
      == Balance(c.held, a) + Times(TimesShort(workers, c.held, target, a), Lack(c.held, a, target))
  {
    SuccessPays(c, Plan(workers, c.held, target), os, a);
    PlanIsExact(workers, c.held, target, a);
  }

  lemma TimesOnce(n: nat, lack: nat)
    requires lack > 0
    ensures Times(n, lack) == lack <==> n == 1
    ensures n >= 1 ==> Times(n, lack) >= lack
  {
  }

  lemma FilledExactlyWhenOnce(workers: seq<Address>, c: Chain, target: nat, os: seq<Outcome>, a: Address)
    requires |os| == |Plan(workers, c.held, target)| && AllSucceed(os) && a in workers
    ensures Balance(Sent(c, Plan(workers, c.held, target), os).held, a) == Max(Balance(c.held, a), target)
      <==> TimesShort(workers, c.held, target, a) <= 1
  {
    hide Plan, Sent, Times, Max;
    ReceivesExactly(workers, c, target, os, a);
    PlanIsExact(workers, c.held, target, a);
    FilledByOne(Balance(c.held, a), target, TimesShort(workers, c.held, target, a));
  }

  lemma FilledByOne(balance: nat, target: nat, n: nat)
    ensures var lack := if balance < target then target - balance else 0;
      balance + Times(n, lack) == Max(balance, target) <==> balance >= target || n == 1
  {
    if balance < target { TimesOnce(n, target - balance); }
  }

  /**
   * When every transfer succeeds, every address ends with the larger of its balance and the target if and only
   * if no address below the target is listed twice.
   */
  lemma FilledExactlyWhenDistinct(workers: seq<Address>, c: Chain, target: nat, os: seq<Outcome>)
    requires |os| == |Plan(workers, c.held, target)| && AllSucceed(os)
    ensures var after := Sent(c, Plan(workers, c.held, target), os);
      (forall a :: a in workers ==> Balance(after.held, a) == Max(Balance(c.held, a), target))
      <==> (forall a :: a in workers ==> TimesShort(workers, c.held, target, a) <= 1)
  {
    var after := Sent(c, Plan(workers, c.held, target), os);
    hide Plan, Sent, TimesShort;
    forall a | a in workers
      ensures Balance(after.held, a) == Max(Balance(c.held, a), target)
        <==> TimesShort(workers, c.held, target, a) <= 1
    {
      FilledExactlyWhenOnce(workers, c, target, os, a);
    }
  }

  /**
   * The per-address cap over a whole run: what an address receives stays within it if and only if the listings of
   * the address times what it lacks do. One listing always does, because the guards hold the target under the cap.
   */
  lemma CapHoldsExactlyWhen(l: Limits, workers: seq<Address>, c: Chain, maxFeePerGas: nat, os: seq<Outcome>, a: Address)
    requires |os| == |Plan(workers, c.held, l.target)| && AllSucceed(os)
    requires Stops(l, Plan(workers, c.held, l.target), c.source, maxFeePerGas, false).None?
    ensures var after := Swept(l, workers, c, maxFeePerGas, false, os).1;
      var n := TimesShort(workers, c.held, l.target, a);
      && (Balance(after.held, a) - Balance(c.held, a) <= l.maxPerAddress
          <==> Times(n, Lack(c.held, a, l.target)) <= l.maxPerAddress)
      && (n <= 1 ==> Balance(after.held, a) - Balance(c.held, a) <= l.maxPerAddress)
  {
    ReceivesExactly(workers, c, l.target, os, a);
    hide Times, Plan, TimesShort, Sent, GasBudget, Total, Checked;
    OneMore(0, Lack(c.held, a, l.target));
  }

  lemma {:induction false} ListedOnce(workers: seq<Address>, a: Address)
    requires Distinct(workers)
    ensures multiset(workers)[a] <= 1
  {
    if workers != [] {
      assert workers == [workers[0]] + workers[1..];
      assert Distinct(workers[1..]) && workers[0] !in workers[1..];
      ListedOnce(workers[1..], a);
    }
  }

  lemma {:induction false} NothingLacking(workers: seq<Address>, held: map<Address, nat>, target: nat, level: nat)
    requires level <= target && forall a :: a in workers ==> Balance(held, a) >= target
    ensures Plan(workers, held, target) == [] && Short(workers, held, level) == []
  {
    if workers != [] { NothingLacking(workers[1..], held, target, level); }
  }

  /**
   * A run over distinct addresses that passes the guards and whose transfers succeed: it is reported as funded,
   * every address ends at the larger of its balance and the target and receives no more than the per-address
   * cap, the wallet keeps its reserve, no more than the per-run cap left it besides fees, and a second run has
   * nothing to send.
   */
  lemma SweepFunds(l: Limits, workers: seq<Address>, c: Chain, maxFeePerGas: nat, os: seq<Outcome>)
    requires Distinct(workers) && l.fundedAt <= l.target
    requires |os| == |Plan(workers, c.held, l.target)| && AllSucceed(os) && FeesWithin(os, maxFeePerGas)
    requires Stops(l, Plan(workers, c.held, l.target), c.source, maxFeePerGas, false).None?
    ensures var (verdict, after) := Swept(l, workers, c, maxFeePerGas, false, os);
      && verdict == Funded && after.source >= l.reserve
      && (forall a :: a in workers ==> Balance(after.held, a) == Max(Balance(c.held, a), l.target))
      && (forall a :: a in workers ==> Balance(after.held, a) - Balance(c.held, a) <= l.maxPerAddress)
      && c.source - after.source <= l.maxPerRun + Fees(os)
      && Plan(workers, after.held, l.target) == []
  {
    var plan := Plan(workers, c.held, l.target);
    var after := Sent(c, plan, os);
    forall a | a in workers ensures TimesShort(workers, c.held, l.target, a) <= 1 { ListedOnce(workers, a); }
    FilledExactlyWhenDistinct(workers, c, l.target, os);
    ReserveThroughout(c, plan, os, maxFeePerGas, l.reserve);
    assert plan[|os|..] == [];
    NothingLacking(workers, after.held, l.target, l.fundedAt);
    SpendsTotal(c, plan, os);
  }

  lemma {:induction false} SpendsTotal(c: Chain, plan: seq<Transfer>, os: seq<Outcome>)
    requires |os| <= |plan|
    ensures c.source - Sent(c, plan, os).source <= Total(plan) + Fees(os)
    decreases |os|
  {
    if os != [] && os[0].Mined? { SpendsTotal(Answered(c, plan[0], os[0]), plan[1..], os[1..]); }
  }

  // ------------------------------------------------------------------ verdicts

  lemma {:induction false} ShortIsExact(workers: seq<Address>, held: map<Address, nat>, level: nat, a: Address)
    ensures a in Short(workers, held, level) <==> a in workers && Balance(held, a) < level
  {
    if workers != [] { ShortIsExact(workers[1..], held, level, a); }
  }

  /**
   * Whatever the answers: a run that sent anything keeps the reserve, so `BelowReserve` is never reported; and it
   * is reported as funded iff every transfer got its receipt and no address is below the level asked for.
   */
  lemma VerdictIsExact(l: Limits, workers: seq<Address>, c: Chain, maxFeePerGas: nat, os: seq<Outcome>)
    requires |os| == |Plan(workers, c.held, l.target)| && FeesWithin(os, maxFeePerGas)
    requires Stops(l, Plan(workers, c.held, l.target), c.source, maxFeePerGas, false).None?
    ensures var (verdict, after) := Swept(l, workers, c, maxFeePerGas, false, os);
      && after.source >= l.reserve && !verdict.BelowReserve?
      && (verdict == Funded <==> Completes(os) && forall a :: a in workers ==> Balance(after.held, a) >= l.fundedAt)
  {
    var plan := Plan(workers, c.held, l.target);
    var after := Sent(c, plan, os);
    ReserveThroughout(c, plan, os, maxFeePerGas, l.reserve);
    assert plan[|os|..] == [];
    var short := Short(workers, after.held, l.fundedAt);
    forall a ensures a in short <==> a in workers && Balance(after.held, a) < l.fundedAt {
      ShortIsExact(workers, after.held, l.fundedAt, a);
    }
    if short != [] { assert short[0] in short; }
  }

  /** No address below the floor the service leases against is left out of a plan that passes the guards. */
  lemma FloorIsCovered(l: Limits, workers: seq<Address>, c: Chain, maxFeePerGas: nat, dryRun: bool, a: Address)
    requires a in workers && Balance(c.held, a) < l.minBalance
    ensures var stop := Stops(l, Plan(workers, c.held, l.target), c.source, maxFeePerGas, dryRun);
      stop != Some(NothingShort)
      && (stop.None? ==>
            TimesIn(Plan(workers, c.held, l.target), a) > 0 && Balance(c.held, a) < l.target <= l.maxPerAddress)
  {
    PlanIsExact(workers, c.held, l.target, a);
  }

  /** An address listed twice is funded twice: past the target, and past the per-address cap. */
  lemma DuplicatesOverfund()
    ensures var l := Limits(1, 2, 2, 10, 0, 1); var c := Chain(100, map[7 := 0]);
      var os := [Mined(true, 0), Mined(true, 0)];
      && |os| == |Plan([7, 7], c.held, l.target)|
      && Swept(l, [7, 7], c, 0, false, os).0 == Funded
      && Balance(Swept(l, [7, 7], c, 0, false, os).1.held, 7) == 4 > l.maxPerAddress
  {
    var l, c := Limits(1, 2, 2, 10, 0, 1), Chain(100, map[7 := 0]);
    var os := [Mined(true, 0), Mined(true, 0)];
    var t := Transfer(7, 2);
    assert [7, 7][1..] == [7] && [7][1..] == [];
    assert Plan([7], c.held, 2) == [t];
    assert Plan([7, 7], c.held, 2) == [t, t];
    assert [t, t][1..] == [t] && os[1..] == [os[1]] && os[1..][1..] == [] && [t][1..] == [];
    assert Total([t]) == 2 && Total([t, t]) == 4;
    var one := Answered(c, t, os[0]);
    assert Sent(one, [t], os[1..]) == Sent(Answered(one, t, os[1]), [], []);
    assert Sent(c, [t, t], os) == Answered(one, t, os[1]);
    assert Short([7], Answered(one, t, os[1]).held, 1) == [];
  }
}
