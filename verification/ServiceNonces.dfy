/** The runs of the service are runs of the job protocol, so what holds of those holds of it. */
module ServiceNonces {
  import Protocol = JobProtocol
  import Store = StoreModel
  import opened Service
  import ChainSafety
  import QuarantineSafety

  /** The protocol events of one input: an accepted request starts its job. */
  function EventsOf(cfg: Config, s: State, i: Input): seq<Protocol.Event> {
    match i
    case Submit(j, _, now) => if Answer(cfg, s, j, now).Accepted? then [Protocol.Start(j)] else []
    case Ask(_, _) => []
    case Happens(e, _) => [e]
  }

  function CoreEvents(cfg: Config, s: State, ins: seq<Input>): seq<Protocol.Event>
    requires Possible(cfg, s, ins)
    decreases |ins|
  {
    if ins == [] then [] else EventsOf(cfg, s, ins[0]) + CoreEvents(cfg, Step(cfg, s, ins[0]), ins[1..])
  }

  lemma StepIsEvents(cfg: Config, s: State, i: Input)
    requires Enabled(s, i)
    ensures Protocol.Possible(s.core, EventsOf(cfg, s, i))
    ensures Protocol.After(s.core, EventsOf(cfg, s, i)) == Step(cfg, s, i).core
  {
    hide Protocol.Step;
    var es := EventsOf(cfg, s, i);
    if es != [] {
      assert es[1..] == [];
      assert Protocol.After(Protocol.Step(s.core, es[0]), []) == Protocol.Step(s.core, es[0]);
    }
  }

  /** Refinement: forgetting store, limiter and clock turns a run of the service into one of the protocol. */
  lemma {:induction false} RunsAreProtocolRuns(cfg: Config, s: State, ins: seq<Input>)
    requires Possible(cfg, s, ins)
    ensures Protocol.Possible(s.core, CoreEvents(cfg, s, ins))
    ensures Protocol.After(s.core, CoreEvents(cfg, s, ins)) == After(cfg, s, ins).core
    decreases |ins|
  {
    hide Step, Enabled, Protocol.Step, Protocol.Enabled;
    if ins != [] {
      var t := Step(cfg, s, ins[0]);
      StepIsEvents(cfg, s, ins[0]);
      RunsAreProtocolRuns(cfg, t, ins[1..]);
      Protocol.RunsJoin(s.core, EventsOf(cfg, s, ins[0]), CoreEvents(cfg, t, ins[1..]));
    }
  }

  /** Nonce safety of the service: in every run in which no clear spans a newer quarantine. */
  lemma ServiceIsNonceSafe(cfg: Config, s: State, ins: seq<Input>, j: JobId)
    requires Init(s) && Possible(cfg, s, ins)
    requires Protocol.Possible(s.core, CoreEvents(cfg, s, ins))
      && QuarantineSafety.AllFresh(s.core, CoreEvents(cfg, s, ins))
    ensures var c := After(cfg, s, ins).core;
      && ChainSafety.NonceSafe(c)
      && (Protocol.Enabled(c, Protocol.NodeAccepts(j)) ==>
            && c.chain[Protocol.LeaseOf(c, j)].outstanding == {}
            && Protocol.PhaseOf(c, j).nonce == Protocol.Latest(c.chain[Protocol.LeaseOf(c, j)]))
  {
    hide Possible, Protocol.Step, Step, CoreEvents, Protocol.Enabled;
    RunsAreProtocolRuns(cfg, s, ins);
    var es := CoreEvents(cfg, s, ins);
    QuarantineSafety.NonceSafety(s.core, es, j);
    LastIsSafe(s.core, es);
  }

  lemma {:induction false} LastIsSafe(c: Protocol.Core, es: seq<Protocol.Event>)
    requires Protocol.Possible(c, es) && QuarantineSafety.AlwaysSafe(c, es)
    ensures ChainSafety.NonceSafe(Protocol.After(c, es))
    decreases |es|
  {
    hide Protocol.Step, Protocol.Enabled, ChainSafety.NonceSafe;
    if es != [] { LastIsSafe(Protocol.Step(c, es[0]), es[1..]); }
  }

  // ------------------------------------------------------------------ exactly when the service is nonce-safe

  /** A sweep's clear in this input, if there is one, still holds on the chain. */
  ghost predicate InTime(s: State, i: Input) { i.Happens? ==> ChainSafety.Timely(s.core, i.event) }

  ghost predicate AlwaysSafe(cfg: Config, s: State, ins: seq<Input>)
    requires Possible(cfg, s, ins)
    decreases |ins|
  {
    ChainSafety.NonceSafe(s.core) && (ins == [] || AlwaysSafe(cfg, Step(cfg, s, ins[0]), ins[1..]))
  }

  ghost predicate AllInTime(cfg: Config, s: State, ins: seq<Input>)
    requires Possible(cfg, s, ins)
    decreases |ins|
  {
    ins == [] || (InTime(s, ins[0]) && AllInTime(cfg, Step(cfg, s, ins[0]), ins[1..]))
  }

  lemma SubmitKeepsAccounts(cfg: Config, s: State, j: JobId, mode: Store.Mode, now: int)
    requires ChainSafety.Inv(s.core) && Enabled(s, Submit(j, mode, now))
    ensures ChainSafety.Inv(Step(cfg, s, Submit(j, mode, now)).core)
  {
    hide ChainSafety.Inv, Protocol.Step, Answer;
    if Answer(cfg, s, j, now).Accepted? { ChainSafety.StepKeepsInv(s.core, Protocol.Start(j)); }
  }

  lemma StepKeepsAccounts(cfg: Config, s: State, i: Input)
    requires ChainSafety.Inv(s.core) && Enabled(s, i)
    ensures if InTime(s, i) then ChainSafety.Inv(Step(cfg, s, i).core)
      else !ChainSafety.NonceSafe(Step(cfg, s, i).core)
  {
    hide ChainSafety.Inv, ChainSafety.NonceSafe, ChainSafety.Timely, Protocol.Step, Submitted, Ops, Protocol.Enabled;
    match i
    case Submit(j, mode, now) => SubmitKeepsAccounts(cfg, s, j, mode, now);
    case Ask(_, _) =>
    case Happens(e, _) =>
      if ChainSafety.Timely(s.core, e) {
        ChainSafety.StepKeepsInv(s.core, e);
      } else {
        ChainSafety.UntimelyClearIsUnsafe(s.core, e);
      }
  }

  lemma {:induction false} SafeExactlyWhenInTime(cfg: Config, s: State, ins: seq<Input>)
    requires ChainSafety.Inv(s.core) && Possible(cfg, s, ins)
    ensures AlwaysSafe(cfg, s, ins) <==> AllInTime(cfg, s, ins)
    decreases |ins|
  {
    hide ChainSafety.Inv, ChainSafety.NonceSafe, Step, Enabled, InTime;
    ChainSafety.InvIsNonceSafe(s.core);
    if ins != [] {
      StepKeepsAccounts(cfg, s, ins[0]);
      if InTime(s, ins[0]) { SafeExactlyWhenInTime(cfg, Step(cfg, s, ins[0]), ins[1..]); }
    }
  }

  /**
   * A run of the service keeps every address nonce-safe in every state if and only if each clear in it happens while
   * no more transactions of the address are pending than mined.
   */
  lemma NonceSafetyOfService(cfg: Config, s: State, ins: seq<Input>)
    requires Init(s) && Possible(cfg, s, ins)
    ensures AlwaysSafe(cfg, s, ins) <==> AllInTime(cfg, s, ins)
  {
    QuarantineSafety.InitInv(s.core);
    hide ChainSafety.Inv, Possible;
    SafeExactlyWhenInTime(cfg, s, ins);
  }
}
