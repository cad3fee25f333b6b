/** The reasoning loop as a transition system over one loop's state, executed steps
    and audit ledger. The proposer, the schema, policy and permit gates, the step's
    observations, the approval check and the clock are arbitrary inputs of each
    call. The rest of the module proves what every history of calls keeps. */
module LoopSpec {
  import opened Wrappers

  datatype LoopPhase =
    | Initializing | Running | Converged | CatalogFloorDone | Paused | Resumed
    | BudgetExhausted | PolicyBlocked | EmergencyStopped | Completed

  /** run_step refuses these; a change into one of them is announced. */
  predicate Terminal(p: LoopPhase) {
    p == Converged || Dead(p)
  }

  /** Pausing and resuming refuse these. */
  predicate Dead(p: LoopPhase) {
    p == BudgetExhausted || p == PolicyBlocked || p == EmergencyStopped || p == Completed
  }

  /** run_step changes nothing in these. */
  predicate Idle(p: LoopPhase) {
    p == Paused || p == CatalogFloorDone
  }

  predicate Steppable(p: LoopPhase) {
    !Terminal(p) && !Idle(p)
  }

  // ------------------------------------------------------------------- budget

  datatype LoopBudget = LoopBudget(
    maxSteps: int, maxTotalTokens: int, maxWallSeconds: int,
    stepsUsed: int, tokensUsed: int, wallSecondsUsed: int)
  {
    function Consume(steps: int, tokens: int): LoopBudget {
      this.(stepsUsed := stepsUsed + steps, tokensUsed := tokensUsed + tokens)
    }

    predicate Exhausted() {
      || stepsUsed >= maxSteps || tokensUsed >= maxTotalTokens
      || wallSecondsUsed >= maxWallSeconds
    }

    /** Give back the seconds of a pause, never below zero. */
    function Credit(seconds: real): LoopBudget {
      var left := wallSecondsUsed - seconds.Floor;
      this.(wallSecondsUsed := if left < 0 then 0 else left)
    }

    ghost predicate Unspent() {
      stepsUsed == 0 && tokensUsed == 0 && wallSecondsUsed == 0
    }
  }

  const DEFAULT_BUDGET := LoopBudget(50, 200000, 1800, 0, 0, 0)
  const STEP_TOKEN_LIMIT := 8000
  const MOCK_STEP_TOKENS := 100

  /** The deny code of the budget gate, if it denies. */
  function BudgetDenial(b: LoopBudget, proposedTokens: int): Option<string> {
    if proposedTokens > STEP_TOKEN_LIMIT then Some("BUDGET_STEP_TOKEN_LIMIT")
    else if b.Consume(0, proposedTokens).Exhausted() then Some("BUDGET_EXHAUSTED")
    else None
  }

  // ----------------------------------------------------------- state and ledger

  datatype ActionType = RunTool | RunCase | RequestPeer | RequestOracle | RequestChain | AbortStep

  datatype ProposeAction = ProposeAction(actionType: ActionType, target: string, rationale: string)

  /** Some fields of a recorded step are left out; none of them is read again. */
  datatype LoopStep = LoopStep(
    stepId: string, action: ProposeAction, tokensUsed: nat, permitId: string,
    resultDigest: string, signals: seq<string>, matched: set<string>, oracleProgressed: bool)

  datatype LoopState = LoopState(
    assessmentId: string, phase: LoopPhase, policySnapshot: string, budget: LoopBudget,
    contextHash: string, required: set<string>, executed: set<string>,
    noSignal: int, policyRejected: int,
    startedAt: real, lastStepAt: Option<real>,
    pauseAttempts: int, pausedAt: Option<real>, resumedAt: Option<real>)

  datatype Gate = BudgetGate | SchemaGate | PolicyGate | PermitGate

  datatype Event =
    | LoopCreated(required: set<string>)
    | StepProposed(stepId: string, action: ActionType, tokensUsed: nat)
    | StepExecuted(stepId: string, signals: seq<string>)
    | GateRejected(gate: Gate, denyCode: string, action: ActionType)
    | BackendUnavailable
    | LoopTerminated(finalPhase: LoopPhase, via: string)
    | LoopPaused(reason: string)
    | LoopResumed(attempts: int, creditSeconds: int)

  datatype Entry = Entry(actor: string, event: Event)

  /** Everything there is about one loop. */
  datatype LoopView = LoopView(state: LoopState, steps: seq<LoopStep>, ledger: seq<Entry>)

  const LOOP_ACTOR := "reasoning_loop"

  function NewLoop(assessmentId: string, policySnapshot: string, budget: LoopBudget,
                   contextHash: string, required: set<string>, now: real): LoopView {
    LoopView(
      LoopState(assessmentId, Initializing, policySnapshot, budget, contextHash, required, {},
                0, 0, now, None, 0, None, None),
      [], [Entry(LOOP_ACTOR, LoopCreated(required))])
  }

  // ---------------------------------------------------------------- termination

  datatype TerminationPolicy = TerminationPolicy(
    noSignalStreak: int, policyStreak: int, maxPauses: int)
  {
    predicate PauseBudgetExceeded(attempts: int) {
      attempts >= maxPauses
    }
  }

  const DEFAULT_POLICY := TerminationPolicy(5, 3, 3)

  /** The first of the reasons, in this order, that applies. */
  function EvaluateTermination(s: LoopState, p: TerminationPolicy): LoopPhase {
    if s.phase == EmergencyStopped then EmergencyStopped
    else if s.phase == Paused then Paused
    else if s.budget.Exhausted() then BudgetExhausted
    else if s.policyRejected >= p.policyStreak then PolicyBlocked
    else if s.noSignal >= p.noSignalStreak then Converged
    else Running
  }

  /** The state delta of one step, before termination is evaluated. */
  function Feedback(s: LoopState, tokens: nat, matched: set<string>, policyPassed: bool,
                    signalCount: nat, now: real): LoopState {
    s.(budget := s.budget.Consume(1, tokens),
       required := s.required - matched,
       executed := s.executed + matched,
       noSignal := if signalCount > 0 then 0 else s.noSignal + 1,
       policyRejected := if policyPassed then 0 else s.policyRejected + 1,
       lastStepAt := Some(now))
  }

  // ---------------------------------------------------------------------- calls

  datatype Verdict = Verdict(passed: bool, denyCode: string, permitId: string)

  datatype Observed = Observed(
    stepId: string, resultDigest: string, signals: seq<string>, matched: set<string>,
    oracleProgressed: bool)

  datatype StepInput = StepInput(
    proposal: Option<ProposeAction>, schema: Verdict, policy: Verdict, permit: Verdict,
    observed: Observed, now: real)

  datatype ResumeInput = ResumeInput(actor: string, byAgent: bool, approved: bool, now: real)

  datatype LoopCall =
    | RunStep(input: StepInput)
    | Pause(actor: string, byAgent: bool, reason: string, now: real)
    | Resume(request: ResumeInput)
    | ResumeLoop(request: ResumeInput)
    | EmergencyStop(actor: string, reason: string, now: real)

  datatype LoopError =
    | LoopNotFound | AlreadyTerminal | HumanOnly | DeadLoop | PauseBudgetSpent | NotApproved
    | NoPauseControl

  /** How the service is composed: whether a budget gate is wired, and the policy
      of the pause service if there is one. */
  datatype Config = Config(budgetGate: bool, pausePolicy: Option<TerminationPolicy>)

  /** What a step that was not a no-op came to. */
  datatype Outcome =
    | Denied(gate: Gate, code: string, proposed: ActionType)
    | Unavailable
    | Performed(action: ProposeAction, permitId: string, observed: Observed)

  function CodeOr(code: string, default_: string): string {
    if code == "" then default_ else code
  }

  /** The gates in order; the first that denies decides. */
  function OutcomeOf(cfg: Config, s: LoopState, i: StepInput): Outcome {
    var denial := BudgetDenial(s.budget, MOCK_STEP_TOKENS);
    if cfg.budgetGate && denial.Some? then
      Denied(BudgetGate, CodeOr(denial.value, "BUDGET_DENIED"), AbortStep)
    else if i.proposal.None? then Unavailable
    else
      var proposed := i.proposal.value.actionType;
      if !i.schema.passed then
        Denied(SchemaGate, CodeOr(i.schema.denyCode, "SCHEMA_DENIED"), proposed)
      else if !i.policy.passed then
        Denied(PolicyGate, CodeOr(i.policy.denyCode, "POLICY_DENIED"), proposed)
      else if !i.permit.passed then
        Denied(PermitGate, CodeOr(i.permit.denyCode, "PERMIT_DENIED"), proposed)
      else Performed(i.proposal.value, i.permit.permitId, i.observed)
  }

  function StepsOf(o: Outcome): seq<LoopStep> {
    match o
    case Performed(a, permitId, obs) =>
      [LoopStep(obs.stepId, a, MOCK_STEP_TOKENS, permitId, obs.resultDigest, obs.signals,
                obs.matched, obs.oracleProgressed)]
    case _ => []
  }

  function EventsOf(o: Outcome): seq<Entry> {
    match o
    case Denied(gate, code, proposed) => [Entry(LOOP_ACTOR, GateRejected(gate, code, proposed))]
    case Unavailable => [Entry(LOOP_ACTOR, BackendUnavailable)]
    case Performed(a, _, obs) =>
      [Entry(LOOP_ACTOR, StepProposed(obs.stepId, a.actionType, MOCK_STEP_TOKENS)),
       Entry(LOOP_ACTOR, StepExecuted(obs.stepId, obs.signals))]
  }

  function ViaOf(o: Outcome): string {
    match o
    case Denied(_, _, _) => "gate_rejected"
    case Unavailable => "backend_unavailable"
    case Performed(_, _, obs) => obs.stepId
  }

  function FedBack(s: LoopState, o: Outcome, now: real): LoopState {
    match o
    case Denied(gate, _, _) => Feedback(s, 0, {}, gate != PolicyGate, 0, now)
    case Unavailable => Feedback(s, 0, {}, true, 0, now)
    case Performed(_, _, obs) => Feedback(s, MOCK_STEP_TOKENS, obs.matched, true, |obs.signals|, now)
  }

  function Announced(p: LoopPhase, via: string): seq<Entry> {
    if Terminal(p) then [Entry(LOOP_ACTOR, LoopTerminated(p, via))] else []
  }

  /** One step taken: recorded, fed back, its phase evaluated under the default
      policy and, if terminal, announced. */
  function Settled(v: LoopView, o: Outcome, now: real): LoopView {
    var s := FedBack(v.state, o, now);
    var phase := EvaluateTermination(s, DEFAULT_POLICY);
    LoopView(s.(phase := phase), v.steps + StepsOf(o),
             v.ledger + EventsOf(o) + Announced(phase, ViaOf(o)))
  }

  function Stopped(v: LoopView, phase: LoopPhase, actor: string, via: string, now: real): LoopView {
    LoopView(v.state.(phase := phase, lastStepAt := Some(now)), v.steps,
             v.ledger + [Entry(actor, LoopTerminated(phase, via))])
  }

  function Truncated(r: real): int {
    if r < 0.0 then -((-r).Floor) else r.Floor
  }

  function CreditOf(s: LoopState, now: real): real {
    if s.pausedAt.Some? then now - s.pausedAt.value else 0.0
  }

  function Woken(v: LoopView, actor: string, now: real): LoopView {
    var s, credit := v.state, CreditOf(v.state, now);
    LoopView(
      s.(phase := Resumed, pauseAttempts := s.pauseAttempts + 1, pausedAt := None,
         resumedAt := Some(now), budget := s.budget.Credit(credit)),
      v.steps, v.ledger + [Entry(actor, LoopResumed(s.pauseAttempts + 1, Truncated(credit)))])
  }

  function ResumeNext(p: TerminationPolicy, v: LoopView, r: ResumeInput): Result<LoopView, LoopError> {
    if r.byAgent then Failure(HumanOnly)
    else if Dead(v.state.phase) then Failure(DeadLoop)
    else if p.PauseBudgetExceeded(v.state.pauseAttempts + 1) then Failure(PauseBudgetSpent)
    else if !r.approved then Failure(NotApproved)
    else Success(Woken(v, r.actor, r.now))
  }

  function Next(cfg: Config, v: LoopView, call: LoopCall): Result<LoopView, LoopError> {
    var phase := v.state.phase;
    match call
    case RunStep(i) =>
      if Terminal(phase) then Failure(AlreadyTerminal)
      else if Idle(phase) then Success(v)
      else Success(Settled(v, OutcomeOf(cfg, v.state, i), i.now))
    case Pause(actor, byAgent, reason, now) =>
      if byAgent then Failure(HumanOnly)
      else if phase == Paused then Success(v)
      else if Dead(phase) then Failure(DeadLoop)
      else Success(LoopView(v.state.(phase := Paused, pausedAt := Some(now)), v.steps,
                            v.ledger + [Entry(actor, LoopPaused(reason))]))
    case Resume(r) =>
      if cfg.pausePolicy.None? then Failure(NoPauseControl)
      else ResumeNext(cfg.pausePolicy.value, v, r)
    case ResumeLoop(r) =>
      if cfg.pausePolicy.None? then Failure(NoPauseControl)
      else
        var resumed := ResumeNext(cfg.pausePolicy.value, v, r);
        if resumed == Failure(PauseBudgetSpent)
        then Success(Stopped(v, PolicyBlocked, r.actor, "pause_budget", r.now))
        else resumed
    case EmergencyStop(actor, _, now) =>
      if phase == EmergencyStopped then Success(v)
      else Success(Stopped(v, EmergencyStopped, actor, "emergency_stop", now))
  }

  function After(cfg: Config, v: LoopView, call: LoopCall): LoopView {
    var r := Next(cfg, v, call);
    if r.Success? then r.value else v
  }

  function Run(cfg: Config, v: LoopView, calls: seq<LoopCall>): LoopView {
    if calls == [] then v
    else After(cfg, Run(cfg, v, calls[..|calls| - 1]), calls[|calls| - 1])
  }

  // ------------------------------------------------ what the ledger says happened

  datatype Kind = Created | Proposed | Executed | Rejected | Down | Ended | Held | Woke

  function KindOf(e: Event): Kind {
    match e
    case LoopCreated(_) => Created
    case StepProposed(_, _, _) => Proposed
    case StepExecuted(_, _) => Executed
    case GateRejected(_, _, _) => Rejected
    case BackendUnavailable => Down
    case LoopTerminated(_, _) => Ended
    case LoopPaused(_) => Held
    case LoopResumed(_, _) => Woke
  }

  function Count(l: seq<Entry>, k: Kind): nat {
    if l == [] then 0
    else Count(l[..|l| - 1], k) + if KindOf(l[|l| - 1].event) == k then 1 else 0
  }

  function Taken(l: seq<Entry>): nat {
    Count(l, Executed) + Count(l, Rejected) + Count(l, Down)
  }

  /** The steps without a signal at the end of the ledger. */
  function QuietTail(l: seq<Entry>): nat {
    if l == [] then 0
    else
      var before := QuietTail(l[..|l| - 1]);
      match l[|l| - 1].event
      case StepExecuted(_, signals) => if |signals| > 0 then 0 else before + 1
      case GateRejected(_, _, _) => before + 1
      case BackendUnavailable => before + 1
      case _ => before
  }

  /** The policy-gate rejections at the end of the ledger, uninterrupted by any
      other kind of step. */
  function RefusedTail(l: seq<Entry>): nat {
    if l == [] then 0
    else
      var before := RefusedTail(l[..|l| - 1]);
      match l[|l| - 1].event
      case StepExecuted(_, _) => 0
      case GateRejected(gate, _, _) => if gate == PolicyGate then before + 1 else 0
      case BackendUnavailable => 0
      case _ => before
  }

  function MatchedBy(steps: seq<LoopStep>): set<string> {
    if steps == [] then {} else MatchedBy(steps[..|steps| - 1]) + steps[|steps| - 1].matched
  }

  function TokensOf(steps: seq<LoopStep>): nat {
    if steps == [] then 0 else TokensOf(steps[..|steps| - 1]) + steps[|steps| - 1].tokensUsed
  }

  /** The state is what the ledger and the recorded steps add up to. */
  ghost predicate LedgerAgrees(required: set<string>, v: LoopView) {
    var s, l := v.state, v.ledger;
    && s.budget.stepsUsed == Taken(l)
    && s.budget.tokensUsed == MOCK_STEP_TOKENS * Count(l, Executed) == TokensOf(v.steps)
    && |v.steps| == Count(l, Executed) == Count(l, Proposed)
    && s.pauseAttempts == Count(l, Woke)
    && s.noSignal == QuietTail(l) && s.policyRejected == RefusedTail(l)
    && s.executed == MatchedBy(v.steps) && s.required == required - s.executed
  }

  lemma CountMore(l: seq<Entry>, e: Entry, k: Kind)
    ensures Count(l + [e], k) == Count(l, k) + if KindOf(e.event) == k then 1 else 0
  {
    assert (l + [e])[..|l|] == l;
  }

  /** Everything read off the ledger, after one more entry. */
  lemma LedgerMore(l: seq<Entry>, e: Entry)
    ensures forall k :: Count(l + [e], k) == Count(l, k) + if KindOf(e.event) == k then 1 else 0
    ensures QuietTail(l + [e]) ==
      match e.event
      case StepExecuted(_, signals) => if |signals| > 0 then 0 else QuietTail(l) + 1
      case GateRejected(_, _, _) => QuietTail(l) + 1
      case BackendUnavailable => QuietTail(l) + 1
      case _ => QuietTail(l)
    ensures RefusedTail(l + [e]) ==
      match e.event
      case StepExecuted(_, _) => 0
      case GateRejected(gate, _, _) => if gate == PolicyGate then RefusedTail(l) + 1 else 0
      case BackendUnavailable => 0
      case _ => RefusedTail(l)
  {
    assert (l + [e])[..|l|] == l;
    forall k ensures Count(l + [e], k) == Count(l, k) + if KindOf(e.event) == k then 1 else 0 {
      CountMore(l, e, k);
    }
  }

  lemma StepsMore(steps: seq<LoopStep>, step: LoopStep)
    ensures MatchedBy(steps + [step]) == MatchedBy(steps) + step.matched
    ensures TokensOf(steps + [step]) == TokensOf(steps) + step.tokensUsed
  {
    assert (steps + [step])[..|steps|] == steps;
  }

  /** The ledger after the outcome of a step, before any announcement. */
  lemma OutcomeLedger(v: LoopView, o: Outcome)
    ensures
      var l, l' := v.ledger, v.ledger + EventsOf(o);
      && Taken(l') == Taken(l) + 1
      && Count(l', Executed) == Count(l, Executed) + |StepsOf(o)|
      && Count(l', Proposed) == Count(l, Proposed) + |StepsOf(o)|
      && Count(l', Woke) == Count(l, Woke) && Count(l', Ended) == Count(l, Ended)
      && QuietTail(l')
         == (if o.Performed? && |o.observed.signals| > 0 then 0 else QuietTail(l) + 1)
      && RefusedTail(l')
         == (if o.Denied? && o.gate == PolicyGate then RefusedTail(l) + 1 else 0)
  {
    hide QuietTail, RefusedTail, Count;
    var l := v.ledger;
    if o.Performed? {
      var es := EventsOf(o);
      LedgerMore(l, es[0]);
      LedgerMore(l + [es[0]], es[1]);
      assert l + es == l + [es[0]] + [es[1]];
    } else {
      assert EventsOf(o) == [EventsOf(o)[0]];
      LedgerMore(l, EventsOf(o)[0]);
    }
  }

  /** Announcing, pausing and resuming leave what is counted of steps alone. */
  lemma OtherEntry(l: seq<Entry>, e: Entry)
    requires e.event.LoopTerminated? || e.event.LoopPaused? || e.event.LoopResumed?
    ensures
      var l' := l + [e];
      && Taken(l') == Taken(l) && Count(l', Executed) == Count(l, Executed)
      && Count(l', Proposed) == Count(l, Proposed)
      && Count(l', Woke) == Count(l, Woke) + (if e.event.LoopResumed? then 1 else 0)
      && Count(l', Ended) == Count(l, Ended) + (if e.event.LoopTerminated? then 1 else 0)
      && QuietTail(l') == QuietTail(l) && RefusedTail(l') == RefusedTail(l)
  {
    hide QuietTail, RefusedTail, Count;
    LedgerMore(l, e);
  }

  lemma SettledLedger(v: LoopView, o: Outcome, now: real)
    ensures
      var l, v' := v.ledger, Settled(v, o, now);
      && v.ledger <= v'.ledger
      && Taken(v'.ledger) == Taken(l) + 1
      && Count(v'.ledger, Executed) == Count(l, Executed) + |StepsOf(o)|
      && Count(v'.ledger, Proposed) == Count(l, Proposed) + |StepsOf(o)|
      && Count(v'.ledger, Woke) == Count(l, Woke)
      && Count(v'.ledger, Ended) == Count(l, Ended) + (if Terminal(v'.state.phase) then 1 else 0)
      && QuietTail(v'.ledger)
         == (if o.Performed? && |o.observed.signals| > 0 then 0 else QuietTail(l) + 1)
      && RefusedTail(v'.ledger)
         == (if o.Denied? && o.gate == PolicyGate then RefusedTail(l) + 1 else 0)
  {
    hide QuietTail, RefusedTail, Count, Taken, EventsOf, StepsOf, FedBack, EvaluateTermination;
    OutcomeLedger(v, o);
    var v' := Settled(v, o, now);
    if Terminal(v'.state.phase) {
      OtherEntry(v.ledger + EventsOf(o), Entry(LOOP_ACTOR, LoopTerminated(v'.state.phase, ViaOf(o))));
    } else {
      assert v'.ledger == v.ledger + EventsOf(o);
    }
  }

  lemma FedBackFields(s: LoopState, o: Outcome, now: real)
    ensures
      var s' := FedBack(s, o, now);
      && s'.budget == s.budget.Consume(1, if o.Performed? then MOCK_STEP_TOKENS else 0)
      && s'.pauseAttempts == s.pauseAttempts
      && s'.noSignal
         == (if o.Performed? && |o.observed.signals| > 0 then 0 else s.noSignal + 1)
      && s'.policyRejected
         == (if o.Denied? && o.gate == PolicyGate then s.policyRejected + 1 else 0)
      && s'.executed == s.executed + (if o.Performed? then o.observed.matched else {})
      && s'.required == s.required - (if o.Performed? then o.observed.matched else {})
  {
  }

  lemma StepsAfter(v: LoopView, o: Outcome)
    ensures
      var steps := v.steps + StepsOf(o);
      && |steps| == |v.steps| + |StepsOf(o)| && |StepsOf(o)| == (if o.Performed? then 1 else 0)
      && TokensOf(steps) == TokensOf(v.steps) + (if o.Performed? then MOCK_STEP_TOKENS else 0)
      && MatchedBy(steps)
         == MatchedBy(v.steps) + (if o.Performed? then o.observed.matched else {})
  {
    hide TokensOf, MatchedBy;
    if o.Performed? {
      StepsMore(v.steps, StepsOf(o)[0]);
      assert StepsOf(o) == [StepsOf(o)[0]];
    } else {
      assert v.steps + StepsOf(o) == v.steps;
    }
  }

  lemma SettledAgrees(required: set<string>, v: LoopView, o: Outcome, now: real)
    requires LedgerAgrees(required, v)
    ensures LedgerAgrees(required, Settled(v, o, now))
  {
    hide QuietTail, RefusedTail, Count, Taken, EvaluateTermination, EventsOf, FedBack, StepsOf,
         TokensOf, MatchedBy;
    SettledLedger(v, o, now);
    FedBackFields(v.state, o, now);
    StepsAfter(v, o);
  }

  lemma NoteAgrees(required: set<string>, v: LoopView, v': LoopView, e: Entry)
    requires LedgerAgrees(required, v) && v'.steps == v.steps && v'.ledger == v.ledger + [e]
    requires e.event.LoopTerminated? || e.event.LoopPaused? || e.event.LoopResumed?
    requires v'.state.budget.stepsUsed == v.state.budget.stepsUsed
    requires v'.state.budget.tokensUsed == v.state.budget.tokensUsed
    requires v'.state.pauseAttempts
          == v.state.pauseAttempts + if e.event.LoopResumed? then 1 else 0
    requires v'.state.noSignal == v.state.noSignal
    requires v'.state.policyRejected == v.state.policyRejected
    requires v'.state.required == v.state.required && v'.state.executed == v.state.executed
    ensures LedgerAgrees(required, v')
  {
    hide QuietTail, RefusedTail, Count, Taken;
    OtherEntry(v.ledger, e);
  }

  /** Every call keeps state and ledger in agreement and only appends to both. */
  lemma CallKeepsLedger(cfg: Config, required: set<string>, v: LoopView, call: LoopCall)
    requires LedgerAgrees(required, v)
    ensures LedgerAgrees(required, After(cfg, v, call))
    ensures v.ledger <= After(cfg, v, call).ledger && v.steps <= After(cfg, v, call).steps
  {
    hide LedgerAgrees, Settled, OutcomeOf;
    var v' := After(cfg, v, call);
    match call
    case RunStep(i) =>
      if v' != v {
        var o := OutcomeOf(cfg, v.state, i);
        SettledAgrees(required, v, o, i.now);
        SettledGrows(v, o, i.now);
      }
    case _ =>
      if v' != v {
        NoteAgrees(required, v, v', v'.ledger[|v.ledger|]);
      }
  }

  lemma SettledGrows(v: LoopView, o: Outcome, now: real)
    ensures v.ledger <= Settled(v, o, now).ledger && v.steps <= Settled(v, o, now).steps
  {
  }

  lemma NewLoopAgrees(v: LoopView)
    requires v.ledger == [Entry(LOOP_ACTOR, LoopCreated(v.state.required))] && v.steps == []
    requires v.state.budget.Unspent() && v.state.executed == {} && v.state.pauseAttempts == 0
    requires v.state.noSignal == v.state.policyRejected == 0
    ensures LedgerAgrees(v.state.required, v)
    ensures Count(v.ledger, Ended) == 0
  {
    hide Count, QuietTail, RefusedTail, TokensOf, MatchedBy;
    NothingNoted();
    assert v.ledger == [] + [v.ledger[0]];
    LedgerMore([], v.ledger[0]);
  }

  lemma NothingNoted()
    ensures forall k :: Count([], k) == 0
    ensures QuietTail([]) == RefusedTail([]) == TokensOf([]) == 0 && MatchedBy([]) == {}
  {
  }

  /** A loop as it is created. */
  ghost predicate IsNew(v: LoopView) {
    && v.ledger == [Entry(LOOP_ACTOR, LoopCreated(v.state.required))] && v.steps == []
    && v.state.budget.Unspent() && v.state.executed == {} && v.state.pauseAttempts == 0
    && v.state.noSignal == v.state.policyRejected == 0
    && v.state.phase == Initializing && v.state.pausedAt == None
  }

  /** State and ledger agree in every reachable state. */
  lemma {:induction false} LedgerAlwaysAgrees(cfg: Config, v0: LoopView, calls: seq<LoopCall>)
    requires IsNew(v0)
    ensures LedgerAgrees(v0.state.required, Run(cfg, v0, calls))
    ensures v0.ledger <= Run(cfg, v0, calls).ledger
  {
    hide LedgerAgrees, After;
    if calls == [] {
      NewLoopAgrees(v0);
    } else {
      LedgerAlwaysAgrees(cfg, v0, calls[..|calls| - 1]);
      CallKeepsLedger(cfg, v0.state.required, Run(cfg, v0, calls[..|calls| - 1]), calls[|calls| - 1]);
    }
  }

  lemma {:induction false} TailsWithinTaken(l: seq<Entry>)
    ensures QuietTail(l) <= Taken(l) && RefusedTail(l) <= Taken(l)
  {
    if l != [] {
      var front, last := l[..|l| - 1], l[|l| - 1];
      assert l == front + [last];
      TailsWithinTaken(front);
      LedgerMore(front, last);
    }
  }

  /** Creating a loop again under its id resets the state but not what was
      recorded: the two still agree exactly if no step was ever taken and no resume
      ever granted. */
  lemma RecreationAgrees(required: set<string>, v: LoopView, again: LoopView)
    requires LedgerAgrees(required, v) && IsNew(again)
    ensures LedgerAgrees(again.state.required,
                         LoopView(again.state, v.steps, v.ledger + again.ledger))
       <==> Taken(v.ledger) == 0 && Count(v.ledger, Woke) == 0
  {
    hide QuietTail, RefusedTail, Count;
    LedgerMore(v.ledger, again.ledger[0]);
    TailsWithinTaken(v.ledger);
  }

  // ---------------------------------------------------------------- terminations

  /** How often the phase changed into a terminal one. */
  function TerminalChanges(cfg: Config, v: LoopView, calls: seq<LoopCall>): nat {
    if calls == [] then 0
    else
      var front := calls[..|calls| - 1];
      var before := Run(cfg, v, front).state.phase;
      var after := Run(cfg, v, calls).state.phase;
      TerminalChanges(cfg, v, front) + if after != before && Terminal(after) then 1 else 0
  }

  lemma CallAnnounces(cfg: Config, v: LoopView, call: LoopCall)
    ensures
      var v' := After(cfg, v, call);
      Count(v'.ledger, Ended) == Count(v.ledger, Ended)
        + if v'.state.phase != v.state.phase && Terminal(v'.state.phase) then 1 else 0
  {
    hide Count, Taken, QuietTail, RefusedTail, Settled, OutcomeOf;
    var v' := After(cfg, v, call);
    match call
    case RunStep(i) =>
      if Steppable(v.state.phase) {
        SettledLedger(v, OutcomeOf(cfg, v.state, i), i.now);
      }
    case _ =>
      if |v'.ledger| > |v.ledger| {
        OtherEntry(v.ledger, v'.ledger[|v.ledger|]);
      }
  }

  /** Each change into a terminal phase is announced exactly once, and nothing
      else is announced as a termination. */
  lemma {:induction false} TerminationsAnnounced(cfg: Config, v0: LoopView, calls: seq<LoopCall>)
    requires IsNew(v0)
    ensures Count(Run(cfg, v0, calls).ledger, Ended) == TerminalChanges(cfg, v0, calls)
  {
    hide After;
    if calls == [] {
      NewLoopAgrees(v0);
    } else {
      TerminationsAnnounced(cfg, v0, calls[..|calls| - 1]);
      CallAnnounces(cfg, Run(cfg, v0, calls[..|calls| - 1]), calls[|calls| - 1]);
    }
  }

  // --------------------------------------------------------------------- budgets

  /** The step limit is kept, and reached only in BUDGET_EXHAUSTED or after an
      emergency stop. */
  ghost predicate StepsWithin(s: LoopState) {
    && s.budget.stepsUsed <= s.budget.maxSteps
    && (s.budget.stepsUsed == s.budget.maxSteps ==>
          s.phase == BudgetExhausted || s.phase == EmergencyStopped)
  }

  /** The tokens stay below the limit, by the last step but one without a gate. */
  ghost predicate TokensWithin(cfg: Config, s: LoopState) {
    && (!Dead(s.phase) ==> s.budget.tokensUsed < s.budget.maxTotalTokens)
    && s.budget.tokensUsed
         < s.budget.maxTotalTokens + (if cfg.budgetGate then 0 else MOCK_STEP_TOKENS)
  }

  /** Resumes stay below the pause limit. */
  ghost predicate ResumesWithin(cfg: Config, s: LoopState) {
    && s.pauseAttempts >= 0
    && (cfg.pausePolicy.None? ==> s.pauseAttempts == 0)
    && (cfg.pausePolicy.Some? ==>
          s.pauseAttempts == 0 || s.pauseAttempts < cfg.pausePolicy.value.maxPauses)
  }

  lemma CallWithinLimits(cfg: Config, v: LoopView, call: LoopCall)
    ensures
      var s, s' := v.state, After(cfg, v, call).state;
      && s'.budget.maxSteps == s.budget.maxSteps
      && s'.budget.maxTotalTokens == s.budget.maxTotalTokens
      && s'.budget.maxWallSeconds == s.budget.maxWallSeconds
      && (StepsWithin(s) ==> StepsWithin(s'))
      && (TokensWithin(cfg, s) ==> TokensWithin(cfg, s'))
      && (ResumesWithin(cfg, s) ==> ResumesWithin(cfg, s'))
  {
    hide FedBack;
    if call.RunStep? && Steppable(v.state.phase) {
      FedBackFields(v.state, OutcomeOf(cfg, v.state, call.input), call.input.now);
      FedBackPhase(v.state, OutcomeOf(cfg, v.state, call.input), call.input.now);
    }
  }

  lemma FedBackPhase(s: LoopState, o: Outcome, now: real)
    ensures FedBack(s, o, now).phase == s.phase
  {
  }

  lemma {:induction false} LimitsHold(cfg: Config, v0: LoopView, calls: seq<LoopCall>)
    requires IsNew(v0)
    ensures
      var s0, s := v0.state, Run(cfg, v0, calls).state;
      && s.budget.maxSteps == s0.budget.maxSteps
      && s.budget.maxTotalTokens == s0.budget.maxTotalTokens
      && s.budget.maxWallSeconds == s0.budget.maxWallSeconds
      && (s0.budget.maxSteps >= 1 ==> StepsWithin(s))
      && (s0.budget.maxTotalTokens >= 1 ==> TokensWithin(cfg, s))
      && ResumesWithin(cfg, s)
  {
    hide After, StepsWithin, TokensWithin, ResumesWithin;
    if calls == [] {
      NewWithinLimits(cfg, v0);
    } else {
      LimitsHold(cfg, v0, calls[..|calls| - 1]);
      CallWithinLimits(cfg, Run(cfg, v0, calls[..|calls| - 1]), calls[|calls| - 1]);
    }
  }

  lemma NewWithinLimits(cfg: Config, v: LoopView)
    requires IsNew(v)
    ensures v.state.budget.maxSteps >= 1 ==> StepsWithin(v.state)
    ensures v.state.budget.maxTotalTokens >= 1 ==> TokensWithin(cfg, v.state)
    ensures ResumesWithin(cfg, v.state)
  {
  }

  /** The step limit is hard over the whole life of a loop, whatever was proposed or
      denied, if and only if it allows a step at all. */
  lemma StepLimitHolds(cfg: Config, v0: LoopView)
    requires IsNew(v0)
    ensures (forall calls :: StepsWithin(Run(cfg, v0, calls).state)) <==> v0.state.budget.maxSteps >= 1
  {
    hide StepsWithin, Run;
    if v0.state.budget.maxSteps >= 1 {
      forall calls ensures StepsWithin(Run(cfg, v0, calls).state) {
        LimitsHold(cfg, v0, calls);
      }
    } else {
      FirstStepCounts(cfg, v0, NO_BACKEND);
      assert !StepsWithin(Run(cfg, v0, [NO_BACKEND]).state) by {
        LimitsHold(cfg, v0, [NO_BACKEND]);
        TooManySteps(Run(cfg, v0, [NO_BACKEND]).state);
      }
    }
  }

  lemma TooManySteps(s: LoopState)
    requires s.budget.stepsUsed == 1 && s.budget.maxSteps <= 0
    ensures !StepsWithin(s)
  {
  }

  lemma FirstStepCounts(cfg: Config, v0: LoopView, call: LoopCall)
    requires IsNew(v0) && call.RunStep?
    ensures Run(cfg, v0, [call]).state.budget.stepsUsed == 1
  {
    assert [call][..0] == [];
    assert Run(cfg, v0, [call]) == After(cfg, v0, call);
    StepsCount(cfg, v0, call);
  }

  /** With a limit that allows no step one step is taken all the same, and no more. */
  lemma {:induction false} NoStepMeansOne(cfg: Config, v0: LoopView, calls: seq<LoopCall>)
    requires IsNew(v0) && v0.state.budget.maxSteps <= 0
    ensures
      var s := Run(cfg, v0, calls).state;
      && s.budget.maxSteps <= 0 && 0 <= s.budget.stepsUsed <= 1
      && (s.budget.stepsUsed == 1 ==> Dead(s.phase))
  {
    hide After;
    if calls != [] {
      NoStepMeansOne(cfg, v0, calls[..|calls| - 1]);
      SpentLoopDies(cfg, Run(cfg, v0, calls[..|calls| - 1]), calls[|calls| - 1]);
    }
  }

  lemma SpentLoopDies(cfg: Config, v: LoopView, call: LoopCall)
    requires v.state.budget.maxSteps <= 0 <= v.state.budget.stepsUsed <= 1
    requires v.state.budget.stepsUsed == 1 ==> Dead(v.state.phase)
    ensures
      var s := After(cfg, v, call).state;
      && s.budget.maxSteps <= 0 <= s.budget.stepsUsed <= 1
      && (s.budget.stepsUsed == 1 ==> Dead(s.phase))
  {
    hide FedBack, OutcomeOf;
    if call.RunStep? && Steppable(v.state.phase) {
      FedBackFields(v.state, OutcomeOf(cfg, v.state, call.input), call.input.now);
      FedBackPhase(v.state, OutcomeOf(cfg, v.state, call.input), call.input.now);
    }
  }

  /** So does the token limit: with the gate the tokens stay below it, without it
      below it plus one step, if and only if it allows a token at all. */
  lemma TokenLimitHolds(cfg: Config, v0: LoopView)
    requires IsNew(v0)
    ensures (forall calls :: TokensWithin(cfg, Run(cfg, v0, calls).state))
       <==> v0.state.budget.maxTotalTokens >= 1
  {
    hide TokensWithin, Run;
    if v0.state.budget.maxTotalTokens >= 1 {
      forall calls ensures TokensWithin(cfg, Run(cfg, v0, calls).state) {
        LimitsHold(cfg, v0, calls);
      }
    } else {
      RunNothing(cfg, v0);
      assert !TokensWithin(cfg, Run(cfg, v0, []).state) by {
        NoTokensAtAll(cfg, v0.state);
      }
    }
  }

  lemma NoTokensAtAll(cfg: Config, s: LoopState)
    requires s.budget.tokensUsed == 0 && s.budget.maxTotalTokens <= 0 && !Dead(s.phase)
    ensures !TokensWithin(cfg, s)
  {
  }

  /** A step that is not a no-op uses up exactly one step; no other call does. */
  lemma StepsCount(cfg: Config, v: LoopView, call: LoopCall)
    ensures After(cfg, v, call).state.budget.stepsUsed
         == v.state.budget.stepsUsed
            + if call.RunStep? && Steppable(v.state.phase) then 1 else 0
  {
  }

  /** The run_step calls that were not refused and no no-ops. */
  function StepsTaken(cfg: Config, v: LoopView, calls: seq<LoopCall>): nat {
    if calls == [] then 0
    else
      var front, last := calls[..|calls| - 1], calls[|calls| - 1];
      StepsTaken(cfg, v, front)
        + if last.RunStep? && Steppable(Run(cfg, v, front).state.phase) then 1 else 0
  }

  /** Over any life the steps used are the steps taken; so no loop that has a step to
      take ever takes more than its limit. */
  lemma {:induction false} StepsOverLife(cfg: Config, v0: LoopView, calls: seq<LoopCall>)
    requires IsNew(v0)
    ensures Run(cfg, v0, calls).state.budget.stepsUsed == StepsTaken(cfg, v0, calls)
    ensures v0.state.budget.maxSteps >= 1 ==> StepsTaken(cfg, v0, calls) <= v0.state.budget.maxSteps
  {
    hide After, Steppable;
    if calls != [] {
      StepsOverLife(cfg, v0, calls[..|calls| - 1]);
      StepsCount(cfg, Run(cfg, v0, calls[..|calls| - 1]), calls[|calls| - 1]);
    }
    LimitsHold(cfg, v0, calls);
  }

  /** A dead loop can only be stopped: nothing else about it ever changes. */
  lemma DeadStaysDead(cfg: Config, v: LoopView, call: LoopCall)
    requires Dead(v.state.phase)
    ensures
      var v' := After(cfg, v, call);
      && v'.steps == v.steps && v'.state.budget == v.state.budget
      && if call.EmergencyStop? && v.state.phase != EmergencyStopped
         then v'.state.phase == EmergencyStopped
         else v' == v
  {
  }

  lemma {:induction false} DeadForGood(cfg: Config, v: LoopView, calls: seq<LoopCall>)
    requires Dead(v.state.phase)
    ensures
      var v' := Run(cfg, v, calls);
      && v'.steps == v.steps && v'.state.budget == v.state.budget
      && (v'.state.phase == v.state.phase || v'.state.phase == EmergencyStopped)
      && (v.state.phase == EmergencyStopped ==> v' == v)
  {
    hide After;
    if calls != [] {
      DeadForGood(cfg, v, calls[..|calls| - 1]);
      DeadStaysDead(cfg, Run(cfg, v, calls[..|calls| - 1]), calls[|calls| - 1]);
    }
  }

  // ------------------------------------------------------- what passes the gates

  /** A proposal that every gate passes; the budget gate, if there is one, when a
      hundred tokens more leave the budget below all three limits. */
  predicate PassesGates(cfg: Config, b: LoopBudget, i: StepInput) {
    && i.proposal.Some? && i.schema.passed && i.policy.passed && i.permit.passed
    && (cfg.budgetGate ==>
          && b.stepsUsed < b.maxSteps && b.tokensUsed + 100 < b.maxTotalTokens
          && b.wallSecondsUsed < b.maxWallSeconds)
  }

  /** What is noted instead of an execution: the first gate that refuses. */
  predicate NotesRefusal(cfg: Config, b: LoopBudget, i: StepInput, e: Event) {
    match e
    case GateRejected(gate, code, action) =>
      (match gate
       case BudgetGate =>
         && cfg.budgetGate && code == "BUDGET_EXHAUSTED" && action == AbortStep
         && (b.stepsUsed >= b.maxSteps || b.tokensUsed + 100 >= b.maxTotalTokens
             || b.wallSecondsUsed >= b.maxWallSeconds)
       case SchemaGate =>
         && PassesGates(cfg, b, i.(schema := PASSED, policy := PASSED, permit := PASSED))
         && !i.schema.passed && action == i.proposal.value.actionType
         && code == (if i.schema.denyCode == "" then "SCHEMA_DENIED" else i.schema.denyCode)
       case PolicyGate =>
         && PassesGates(cfg, b, i.(policy := PASSED, permit := PASSED))
         && !i.policy.passed && action == i.proposal.value.actionType
         && code == (if i.policy.denyCode == "" then "POLICY_DENIED" else i.policy.denyCode)
       case PermitGate =>
         && PassesGates(cfg, b, i.(permit := PASSED))
         && !i.permit.passed && action == i.proposal.value.actionType
         && code == (if i.permit.denyCode == "" then "PERMIT_DENIED" else i.permit.denyCode))
    case BackendUnavailable =>
      i.proposal.None? && PassesGates(cfg, b, i.(proposal := Some(ProposeAction(AbortStep, "", "")),
                                                 schema := PASSED, policy := PASSED, permit := PASSED))
    case _ => false
  }

  const PASSED := Verdict(true, "", "")

  /** The step recorded of a proposal that passed. */
  function StepFor(i: StepInput): LoopStep
    requires i.proposal.Some?
  {
    LoopStep(i.observed.stepId, i.proposal.value, 100, i.permit.permitId, i.observed.resultDigest,
             i.observed.signals, i.observed.matched, i.observed.oracleProgressed)
  }

  /** What a step that is taken adds, before any announcement: proposal and execution
      of a step that passed all gates, or one refusal by the first gate that did not
      let it pass. */
  ghost predicate GatesDecide(cfg: Config, v: LoopView, i: StepInput, v': LoopView) {
    var n := |v.ledger|;
    && v.ledger <= v'.ledger
    && (if PassesGates(cfg, v.state.budget, i) then
          && v'.steps == v.steps + [StepFor(i)] && |v'.ledger| >= n + 2
          && v'.ledger[n].event == StepProposed(i.observed.stepId, i.proposal.value.actionType, 100)
          && v'.ledger[n + 1].event == StepExecuted(i.observed.stepId, i.observed.signals)
          && OnlyAnnounces(v'.ledger[n + 2..])
        else
          && v'.steps == v.steps && |v'.ledger| >= n + 1
          && NotesRefusal(cfg, v.state.budget, i, v'.ledger[n].event)
          && OnlyAnnounces(v'.ledger[n + 1..]))
  }

  predicate OnlyAnnounces(l: seq<Entry>) {
    l == [] || (|l| == 1 && l[0].event.LoopTerminated?)
  }

  lemma GatesInOrder(cfg: Config, s: LoopState, i: StepInput)
    ensures
      var o := OutcomeOf(cfg, s, i);
      if PassesGates(cfg, s.budget, i) then
        && o.Performed? && StepsOf(o) == [StepFor(i)]
        && EventsOf(o)
           == [Entry(LOOP_ACTOR, StepProposed(i.observed.stepId, i.proposal.value.actionType, 100)),
               Entry(LOOP_ACTOR, StepExecuted(i.observed.stepId, i.observed.signals))]
      else
        && !o.Performed? && StepsOf(o) == [] && |EventsOf(o)| == 1
        && NotesRefusal(cfg, s.budget, i, EventsOf(o)[0].event)
  {
  }

  /** run_step, phase by phase: a loop that may step executes exactly what passes its
      gates, a resting one stays as it is, and an ended one refuses. */
  lemma StepPassesGates(cfg: Config, v: LoopView, i: StepInput)
    ensures v.state.phase in {Initializing, Running, Resumed} ==>
      Next(cfg, v, RunStep(i)).Success? && GatesDecide(cfg, v, i, After(cfg, v, RunStep(i)))
    ensures v.state.phase in {Paused, CatalogFloorDone} ==> Next(cfg, v, RunStep(i)) == Success(v)
    ensures v.state.phase !in {Initializing, Running, Resumed, Paused, CatalogFloorDone} ==>
      Next(cfg, v, RunStep(i)) == Failure(AlreadyTerminal)
  {
    hide FedBack, EvaluateTermination, OutcomeOf, PassesGates, NotesRefusal, EventsOf, StepsOf, StepFor;
    if v.state.phase in {Initializing, Running, Resumed} {
      GatesInOrder(cfg, v.state, i);
      var o := OutcomeOf(cfg, v.state, i);
      var v' := Settled(v, o, i.now);
      var noted := v.ledger + EventsOf(o);
      assert v'.ledger[..|noted|] == noted && v'.ledger[|noted|..] == Announced(v'.state.phase, ViaOf(o));
      assert noted[|v.ledger|] == EventsOf(o)[0] == v'.ledger[|v.ledger|];
      if PassesGates(cfg, v.state.budget, i) {
        assert noted[|v.ledger| + 1] == EventsOf(o)[1] == v'.ledger[|v.ledger| + 1];
      }
    }
  }

  /** The steps of the proposals that were made while the loop might step and passed
      every gate. */
  function Admitted(cfg: Config, v0: LoopView, calls: seq<LoopCall>): seq<LoopStep> {
    if calls == [] then []
    else
      var front, last := calls[..|calls| - 1], calls[|calls| - 1];
      var s := Run(cfg, v0, front).state;
      Admitted(cfg, v0, front)
        + if last.RunStep? && s.phase in {Initializing, Running, Resumed}
             && PassesGates(cfg, s.budget, last.input)
          then [StepFor(last.input)] else []
  }

  /** The executions the ledger tells of, and those of recorded steps. */
  function Executions(l: seq<Entry>): seq<Event> {
    if l == [] then []
    else
      Executions(l[..|l| - 1])
        + if l[|l| - 1].event.StepExecuted? then [l[|l| - 1].event] else []
  }

  function ExecutionsOf(steps: seq<LoopStep>): seq<Event> {
    if steps == [] then []
    else
      var last := steps[|steps| - 1];
      ExecutionsOf(steps[..|steps| - 1]) + [StepExecuted(last.stepId, last.signals)]
  }

  lemma {:induction false} ExecutionsAppend(l: seq<Entry>, more: seq<Entry>)
    ensures Executions(l + more) == Executions(l) + Executions(more)
  {
    if more == [] {
      assert l + more == l;
    } else {
      var n := |more| - 1;
      assert (l + more)[..|l| + n] == l + more[..n];
      ExecutionsAppend(l, more[..n]);
    }
  }

  lemma CallExecutes(cfg: Config, v: LoopView, call: LoopCall)
    requires Executions(v.ledger) == ExecutionsOf(v.steps)
    ensures
      var v' := After(cfg, v, call);
      && v'.steps
         == v.steps + (if call.RunStep? && v.state.phase in {Initializing, Running, Resumed}
                          && PassesGates(cfg, v.state.budget, call.input)
                       then [StepFor(call.input)] else [])
      && Executions(v'.ledger) == ExecutionsOf(v'.steps)
  {
    hide PassesGates, NotesRefusal, StepFor, Executions, ExecutionsOf, Settled, OutcomeOf;
    var v' := After(cfg, v, call);
    if call.RunStep? {
      StepPassesGates(cfg, v, call.input);
      if v.state.phase in {Initializing, Running, Resumed} {
        StepExecutes(cfg, v, call.input, v');
      } else {
        assert v' == v && v.steps + [] == v.steps;
      }
    } else {
      assert v'.steps == v.steps && v.steps + [] == v.steps;
      if v' != v {
        ExecutionsAppend(v.ledger, [v'.ledger[|v.ledger|]]);
        NoExecution([v'.ledger[|v.ledger|]]);
      }
    }
  }

  lemma NoExecution(l: seq<Entry>)
    requires |l| <= 1 && forall e | e in l :: !e.event.StepExecuted?
    ensures Executions(l) == []
  {
  }

  lemma StepExecutes(cfg: Config, v: LoopView, i: StepInput, v': LoopView)
    requires GatesDecide(cfg, v, i, v') && Executions(v.ledger) == ExecutionsOf(v.steps)
    ensures v'.steps == v.steps + if PassesGates(cfg, v.state.budget, i) then [StepFor(i)] else []
    ensures Executions(v'.ledger) == ExecutionsOf(v'.steps)
  {
    hide PassesGates, Executions, NotesRefusal, OnlyAnnounces, StepFor, ExecutionsOf;
    var n := |v.ledger|;
    var more := v'.ledger[n..];
    assert v'.ledger == v.ledger + more;
    ExecutionsAppend(v.ledger, more);
    if PassesGates(cfg, v.state.budget, i) {
      assert more[2..] == v'.ledger[n + 2..];
      ExecutedOnce(more);
      PassedStep(cfg, v.state.budget, i);
      LastExecution(v.steps, StepFor(i));
    } else {
      assert more[1..] == v'.ledger[n + 1..];
      RefusalIsNone(cfg, v.state.budget, i, more[0].event);
      ExecutedNever(more);
      assert v.steps + [] == v.steps;
    }
  }

  lemma PassedStep(cfg: Config, b: LoopBudget, i: StepInput)
    requires PassesGates(cfg, b, i)
    ensures i.proposal.Some?
    ensures StepFor(i).stepId == i.observed.stepId && StepFor(i).signals == i.observed.signals
  {
  }

  lemma RefusalIsNone(cfg: Config, b: LoopBudget, i: StepInput, e: Event)
    requires NotesRefusal(cfg, b, i, e)
    ensures !e.StepExecuted?
  {
    hide PassesGates;
  }

  lemma LastExecution(steps: seq<LoopStep>, step: LoopStep)
    ensures ExecutionsOf(steps + [step])
         == ExecutionsOf(steps) + [StepExecuted(step.stepId, step.signals)]
  {
    assert (steps + [step])[..|steps|] == steps;
  }

  lemma ExecutedOnce(more: seq<Entry>)
    requires |more| >= 2 && more[0].event.StepProposed? && more[1].event.StepExecuted?
    requires OnlyAnnounces(more[2..])
    ensures Executions(more) == [more[1].event]
  {
    hide Executions;
    assert more == [more[0]] + [more[1]] + more[2..];
    ExecutionsAppend([more[0]] + [more[1]], more[2..]);
    ExecutionsAppend([more[0]], [more[1]]);
    NoExecution([more[0]]);
    OneExecution(more[1]);
    NoExecution(more[2..]);
  }

  lemma ExecutedNever(more: seq<Entry>)
    requires |more| >= 1 && !more[0].event.StepExecuted? && OnlyAnnounces(more[1..])
    ensures Executions(more) == []
  {
    hide Executions;
    assert more == [more[0]] + more[1..];
    ExecutionsAppend([more[0]], more[1..]);
    NoExecution([more[0]]);
    NoExecution(more[1..]);
  }

  lemma OneExecution(e: Entry)
    requires e.event.StepExecuted?
    ensures Executions([e]) == [e.event]
  {
    assert [e][..0] == [];
  }

  /** Over any life the recorded steps are exactly those of the admitted proposals, in
      order, and each is the one execution the ledger tells of. */
  lemma {:induction false} OnlyAdmittedStepsAreExecuted(cfg: Config, v0: LoopView, calls: seq<LoopCall>)
    requires IsNew(v0)
    ensures Run(cfg, v0, calls).steps == Admitted(cfg, v0, calls)
    ensures Executions(Run(cfg, v0, calls).ledger) == ExecutionsOf(Admitted(cfg, v0, calls))
  {
    hide After, PassesGates, StepFor, Executions;
    if calls == [] {
      NoExecution(v0.ledger);
    } else {
      var front := calls[..|calls| - 1];
      OnlyAdmittedStepsAreExecuted(cfg, v0, front);
      CallExecutes(cfg, Run(cfg, v0, front), calls[|calls| - 1]);
    }
  }

  // -------------------------------------------------- what the ledger says of phases

  /** The phase the last entry of a ledger speaks of. */
  function PhaseTold(l: seq<Entry>): LoopPhase {
    if l == [] then Initializing
    else
      match l[|l| - 1].event
      case LoopCreated(_) => Initializing
      case LoopTerminated(phase, _) => phase
      case LoopPaused(_) => Paused
      case LoopResumed(_, _) => Resumed
      case _ => Running
  }

  predicate LimitReached(b: LoopBudget) {
    b.stepsUsed >= b.maxSteps || b.tokensUsed >= b.maxTotalTokens || b.wallSecondsUsed >= b.maxWallSeconds
  }

  /** A loop goes on while no limit is reached, fewer than three policy refusals and
      fewer than five steps without a signal came last; otherwise the first of these
      has ended it. */
  ghost predicate PhaseAgrees(v: LoopView) {
    var s, quiet, refused := v.state, QuietTail(v.ledger), RefusedTail(v.ledger);
    && s.phase == PhaseTold(v.ledger) && s.phase !in {CatalogFloorDone, Completed}
    && (s.phase == Initializing ==> quiet == refused == 0)
    && (s.phase == Running ==> !LimitReached(s.budget) && refused < 3 && quiet < 5)
    && (s.phase == Converged ==> !LimitReached(s.budget) && refused < 3 && quiet >= 5)
    && (s.phase == BudgetExhausted ==> LimitReached(s.budget))
    && (s.phase == PolicyBlocked ==>
          || v.ledger[|v.ledger| - 1].event == LoopTerminated(PolicyBlocked, "pause_budget")
          || (!LimitReached(s.budget) && refused >= 3))
    && (refused >= 3 ==> s.phase in {PolicyBlocked, BudgetExhausted, EmergencyStopped})
  }

  lemma CallKeepsPhase(cfg: Config, v: LoopView, call: LoopCall)
    requires PhaseAgrees(v) && v.ledger != []
    requires v.state.noSignal == QuietTail(v.ledger) && v.state.policyRejected == RefusedTail(v.ledger)
    ensures PhaseAgrees(After(cfg, v, call))
  {
    hide QuietTail, RefusedTail, Count, Taken, OutcomeOf;
    var v' := After(cfg, v, call);
    match call
    case RunStep(i) =>
      if v.state.phase in {Initializing, Running, Resumed} {
        StepKeepsPhase(v, OutcomeOf(cfg, v.state, i), i.now);
      }
    case _ =>
      if |v'.ledger| > |v.ledger| {
        OtherEntry(v.ledger, v'.ledger[|v.ledger|]);
      }
  }

  /** After any step the phase is read off the budget and the two streaks. */
  lemma StepKeepsPhase(v: LoopView, o: Outcome, now: real)
    requires v.state.phase !in {EmergencyStopped, Paused}
    requires v.state.noSignal == QuietTail(v.ledger) && v.state.policyRejected == RefusedTail(v.ledger)
    ensures
      var v' := Settled(v, o, now);
      && PhaseAgrees(v')
      && v'.state.phase == (if LimitReached(v'.state.budget) then BudgetExhausted
                            else if RefusedTail(v'.ledger) >= 3 then PolicyBlocked
                            else if QuietTail(v'.ledger) >= 5 then Converged
                            else Running)
  {
    hide QuietTail, RefusedTail, Count, Taken, FedBack;
    SettledLedger(v, o, now);
    FedBackFields(v.state, o, now);
    FedBackPhase(v.state, o, now);
    var v' := Settled(v, o, now);
    assert v'.state.phase == Running ==> v'.ledger == v.ledger + EventsOf(o);
  }

  /** In every reachable state the phase is the one the ledger told of last, and it
      is Running, Converged, BudgetExhausted or PolicyBlocked only for its reason. */
  lemma {:induction false} PhaseAlwaysAgrees(cfg: Config, v0: LoopView, calls: seq<LoopCall>)
    requires IsNew(v0)
    ensures PhaseAgrees(Run(cfg, v0, calls))
  {
    hide After, PhaseAgrees, LedgerAgrees, QuietTail, RefusedTail;
    if calls == [] {
      NewPhaseAgrees(v0);
    } else {
      var v := Run(cfg, v0, calls[..|calls| - 1]);
      PhaseAlwaysAgrees(cfg, v0, calls[..|calls| - 1]);
      LedgerAlwaysAgrees(cfg, v0, calls[..|calls| - 1]);
      AgreedStreaks(v0.state.required, v);
      CallKeepsPhase(cfg, v, calls[|calls| - 1]);
    }
  }

  lemma AgreedStreaks(required: set<string>, v: LoopView)
    requires LedgerAgrees(required, v)
    ensures v.state.noSignal == QuietTail(v.ledger) && v.state.policyRejected == RefusedTail(v.ledger)
  {
  }

  lemma NewPhaseAgrees(v: LoopView)
    requires IsNew(v)
    ensures PhaseAgrees(v)
  {
    hide QuietTail, RefusedTail;
    NothingNoted();
    assert v.ledger == [] + [v.ledger[0]];
    LedgerMore([], v.ledger[0]);
  }

  // ------------------------------------------------------ what humans let happen

  /** A resume asked for by a human and approved, of a loop that has not ended, with a
      resume left. */
  predicate Grants(cfg: Config, s: LoopState, call: LoopCall) {
    (call.Resume? || call.ResumeLoop?)
    && !call.request.byAgent && call.request.approved
    && s.phase !in {BudgetExhausted, PolicyBlocked, EmergencyStopped, Completed}
    && cfg.pausePolicy.Some? && s.pauseAttempts + 1 < cfg.pausePolicy.value.maxPauses
  }

  /** A pause asked for by a human of a loop that neither rests already nor has ended. */
  predicate Holds(s: LoopState, call: LoopCall) {
    call.Pause? && !call.byAgent
    && s.phase !in {Paused, BudgetExhausted, PolicyBlocked, EmergencyStopped, Completed}
  }

  function Granted(cfg: Config, v: LoopView, calls: seq<LoopCall>): nat {
    if calls == [] then 0
    else
      var front := calls[..|calls| - 1];
      Granted(cfg, v, front)
        + if Grants(cfg, Run(cfg, v, front).state, calls[|calls| - 1]) then 1 else 0
  }

  function Pauses(cfg: Config, v: LoopView, calls: seq<LoopCall>): nat {
    if calls == [] then 0
    else
      var front := calls[..|calls| - 1];
      Pauses(cfg, v, front) + if Holds(Run(cfg, v, front).state, calls[|calls| - 1]) then 1 else 0
  }

  lemma CallNotesHumans(cfg: Config, v: LoopView, call: LoopCall)
    ensures
      var v' := After(cfg, v, call);
      && Count(v'.ledger, Woke) == Count(v.ledger, Woke) + (if Grants(cfg, v.state, call) then 1 else 0)
      && Count(v'.ledger, Held) == Count(v.ledger, Held) + (if Holds(v.state, call) then 1 else 0)
  {
    hide Count, Taken, QuietTail, RefusedTail, Settled, OutcomeOf;
    var v' := After(cfg, v, call);
    match call
    case RunStep(i) =>
      if Steppable(v.state.phase) {
        SettledHumans(v, OutcomeOf(cfg, v.state, i), i.now);
      }
    case _ =>
      if |v'.ledger| > |v.ledger| {
        LedgerMore(v.ledger, v'.ledger[|v.ledger|]);
      }
  }

  lemma SettledHumans(v: LoopView, o: Outcome, now: real)
    ensures
      var l := Settled(v, o, now).ledger;
      Count(l, Woke) == Count(v.ledger, Woke) && Count(l, Held) == Count(v.ledger, Held)
  {
    hide Count, QuietTail, RefusedTail, FedBack, EvaluateTermination;
    var es := EventsOf(o);
    LedgerMore(v.ledger, es[0]);
    assert es == [es[0]] || es == [es[0]] + [es[1]];
    if o.Performed? {
      LedgerMore(v.ledger + [es[0]], es[1]);
      assert v.ledger + es == v.ledger + [es[0]] + [es[1]];
    }
    var v' := Settled(v, o, now);
    if Terminal(v'.state.phase) {
      LedgerMore(v.ledger + es, Entry(LOOP_ACTOR, LoopTerminated(v'.state.phase, ViaOf(o))));
    } else {
      assert v'.ledger == v.ledger + es;
    }
  }

  /** Over any life the ledger tells of exactly the pauses that humans asked for and of
      exactly the resumes that humans asked for and that were approved; the loop counts
      the same resumes. */
  lemma {:induction false} HumansPauseAndResume(cfg: Config, v0: LoopView, calls: seq<LoopCall>)
    requires IsNew(v0)
    ensures
      var v := Run(cfg, v0, calls);
      && v.state.pauseAttempts == Count(v.ledger, Woke) == Granted(cfg, v0, calls)
      && Count(v.ledger, Held) == Pauses(cfg, v0, calls)
  {
    hide After, Count, Grants, Holds;
    LedgerAlwaysAgrees(cfg, v0, calls);
    if calls == [] {
      NoHumansYet(v0);
    } else {
      var front := calls[..|calls| - 1];
      HumansPauseAndResume(cfg, v0, front);
      CallNotesHumans(cfg, Run(cfg, v0, front), calls[|calls| - 1]);
    }
  }

  lemma NoHumansYet(v: LoopView)
    requires IsNew(v)
    ensures Count(v.ledger, Woke) == Count(v.ledger, Held) == 0
  {
    assert v.ledger[..0] == [];
  }

  /** In whose name each call is noted, and as what: pauses, resumes and stops in that of
      whoever asked for them, everything a step comes to in that of the loop. */
  lemma CallsAreNotedAs(cfg: Config, v: LoopView, call: LoopCall)
    ensures
      var v' := After(cfg, v, call);
      var more := v'.ledger[|v.ledger|..];
      && v.ledger <= v'.ledger
      && (Holds(v.state, call) ==> more == [Entry(call.actor, LoopPaused(call.reason))])
      && (Grants(cfg, v.state, call) ==>
            && |more| == 1 && more[0].actor == call.request.actor && more[0].event.LoopResumed?
            && more[0].event.attempts == v.state.pauseAttempts + 1)
      && (call.EmergencyStop? && v.state.phase != EmergencyStopped ==>
            more == [Entry(call.actor, LoopTerminated(EmergencyStopped, "emergency_stop"))])
      && (call.ResumeLoop? && !Grants(cfg, v.state, call) && v' != v ==>
            more == [Entry(call.request.actor, LoopTerminated(PolicyBlocked, "pause_budget"))])
      && (call.RunStep? ==> forall e | e in more :: e.actor == "reasoning_loop")
  {
    hide OutcomeOf, FedBack, EvaluateTermination;
    var v' := After(cfg, v, call);
    if call.RunStep? && Steppable(v.state.phase) {
      var o := OutcomeOf(cfg, v.state, call.input);
      SettledGrows(v, o, call.input.now);
      assert v'.ledger[|v.ledger|..] == EventsOf(o) + Announced(v'.state.phase, ViaOf(o));
    }
  }

  /** Since when a loop has been held: the clock of the last pause, unless a resume was
      granted after it. */
  function HeldSince(cfg: Config, v: LoopView, calls: seq<LoopCall>): Option<real> {
    if calls == [] then v.state.pausedAt
    else
      var front, last := calls[..|calls| - 1], calls[|calls| - 1];
      var s := Run(cfg, v, front).state;
      if Holds(s, last) then Some(last.now)
      else if Grants(cfg, s, last) then None
      else HeldSince(cfg, v, front)
  }

  /** The clocks of a loop are those of its calls: a pause lasts until a resume is
      granted, so no second of it is credited twice, and nothing that a loop was
      created with is ever changed. */
  lemma {:induction false} ClocksAreThoseOfCalls(cfg: Config, v0: LoopView, calls: seq<LoopCall>)
    ensures
      var s0, s := v0.state, Run(cfg, v0, calls).state;
      && s.pausedAt == HeldSince(cfg, v0, calls)
      && s.assessmentId == s0.assessmentId && s.policySnapshot == s0.policySnapshot
      && s.contextHash == s0.contextHash && s.startedAt == s0.startedAt
  {
    hide After, Holds, Grants;
    if calls != [] {
      ClocksAreThoseOfCalls(cfg, v0, calls[..|calls| - 1]);
      CallKeepsClocks(cfg, Run(cfg, v0, calls[..|calls| - 1]), calls[|calls| - 1]);
    }
  }

  lemma CallKeepsClocks(cfg: Config, v: LoopView, call: LoopCall)
    ensures
      var s, s' := v.state, After(cfg, v, call).state;
      && s'.pausedAt == (if Holds(s, call) then Some(call.now)
                         else if Grants(cfg, s, call) then None else s.pausedAt)
      && s'.assessmentId == s.assessmentId && s'.policySnapshot == s.policySnapshot
      && s'.contextHash == s.contextHash && s'.startedAt == s.startedAt
      && (s' != s && !Holds(s, call) && !Grants(cfg, s, call) ==>
            s'.lastStepAt == Some(ClockOf(call)))
      && (Grants(cfg, s, call) ==> s'.resumedAt == Some(call.request.now))
  {
    hide OutcomeOf, EvaluateTermination;
  }

  /** Any other pause or resume leaves the loop alone, except that a human's resume
      through the loop service ends a loop without a resume left. */
  lemma RefusedControlChangesNothing(cfg: Config, v: LoopView, call: LoopCall)
    requires call.Pause? || call.Resume? || call.ResumeLoop?
    requires !Grants(cfg, v.state, call) && !Holds(v.state, call)
    ensures
      if call.ResumeLoop? && cfg.pausePolicy.Some? && !call.request.byAgent
         && v.state.phase !in {BudgetExhausted, PolicyBlocked, EmergencyStopped, Completed}
         && v.state.pauseAttempts + 1 >= cfg.pausePolicy.value.maxPauses
      then After(cfg, v, call).state.phase == PolicyBlocked
      else After(cfg, v, call) == v
  {
  }

  // ------------------------------------------------------- a step in two pieces

  /** A step that read the loop as v and saves it when it has become v'. */
  function LateStep(cfg: Config, v: LoopView, v': LoopView, i: StepInput): LoopView {
    var o := OutcomeOf(cfg, v.state, i);
    var settled := Settled(v, o, i.now);
    LoopView(settled.state, v'.steps + StepsOf(o),
             v'.ledger + EventsOf(o) + Announced(settled.state.phase, ViaOf(o)))
  }

  /** Calls on a steppable loop: steps and resumes only grow, and a loop that has
      neither stepped nor been resumed is what it was or can no longer step. */
  ghost predicate MovedOn(v: LoopView, v': LoopView) {
    var s, s' := v.state, v'.state;
    && s.budget.stepsUsed <= s'.budget.stepsUsed && s.pauseAttempts <= s'.pauseAttempts
    && (s.budget.stepsUsed == s'.budget.stepsUsed && s.pauseAttempts == s'.pauseAttempts ==>
          v' == v || !Steppable(s'.phase))
  }

  lemma CallMovesOn(cfg: Config, v: LoopView, u: LoopView, call: LoopCall)
    requires Steppable(v.state.phase) && MovedOn(v, u)
    ensures MovedOn(v, After(cfg, u, call))
  {
    hide OutcomeOf, Settled;
    StepsCount(cfg, u, call);
    if call.RunStep? && Steppable(u.state.phase) {
      SettledAttempts(u, OutcomeOf(cfg, u.state, call.input), call.input.now);
    }
  }

  lemma SettledAttempts(v: LoopView, o: Outcome, now: real)
    ensures Settled(v, o, now).state.pauseAttempts == v.state.pauseAttempts
    ensures Settled(v, o, now).state.budget.stepsUsed == v.state.budget.stepsUsed + 1
  {
  }

  lemma {:induction false} CallsMoveOn(cfg: Config, v: LoopView, calls: seq<LoopCall>)
    requires Steppable(v.state.phase)
    ensures MovedOn(v, Run(cfg, v, calls))
  {
    hide After, MovedOn;
    if calls == [] {
      assert MovedOn(v, v) by {
        MovesNowhere(v);
      }
    } else {
      CallsMoveOn(cfg, v, calls[..|calls| - 1]);
      CallMovesOn(cfg, v, Run(cfg, v, calls[..|calls| - 1]), calls[|calls| - 1]);
    }
  }

  lemma MovesNowhere(v: LoopView)
    ensures MovedOn(v, v)
  {
  }

  /** A step whose reading and saving are two steps, with any calls in between, leaves
      the loop as a step in one piece after those calls would, if and only if none of
      the calls changed the loop. In particular it overwrites every stop, pause and
      step that came in between. */
  lemma LateStepIsHarmless(cfg: Config, v: LoopView, calls: seq<LoopCall>, i: StepInput)
    requires Steppable(v.state.phase)
    ensures
      var v' := Run(cfg, v, calls);
      LateStep(cfg, v, v', i) == After(cfg, v', RunStep(i)) <==> v' == v
  {
    hide OutcomeOf, EvaluateTermination, FedBack, EventsOf, StepsOf, Announced, Run;
    var v' := Run(cfg, v, calls);
    CallsMoveOn(cfg, v, calls);
    var o := OutcomeOf(cfg, v.state, i);
    LateStepCounts(cfg, v, v', i);
    if Steppable(v'.state.phase) {
      LateStepCounts(cfg, v', v', i);
    }
  }

  lemma LateStepCounts(cfg: Config, v: LoopView, v': LoopView, i: StepInput)
    ensures
      var late := LateStep(cfg, v, v', i);
      && |late.ledger| > |v'.ledger|
      && late.state.budget.stepsUsed == v.state.budget.stepsUsed + 1
      && late.state.pauseAttempts == v.state.pauseAttempts
  {
    hide OutcomeOf, EvaluateTermination;
  }

  // -------------------------------------------------------- loops without signals

  ghost predicate NoSignals(calls: seq<LoopCall>) {
    forall c | c in calls && c.RunStep? :: c.input.observed.signals == []
  }

  /** Without signals every step deepens the streak, and past the streak limit
      each further step was paid for by a resume. */
  ghost predicate PaidFor(s: LoopState) {
    && s.noSignal == s.budget.stepsUsed && s.pauseAttempts >= 0
    && (s.budget.stepsUsed >= DEFAULT_POLICY.noSignalStreak ==>
          s.budget.stepsUsed + (if Steppable(s.phase) then 1 else 0)
            <= DEFAULT_POLICY.noSignalStreak + s.pauseAttempts)
  }

  lemma CallKeepsPaid(cfg: Config, v: LoopView, call: LoopCall)
    requires PaidFor(v.state)
    requires call.RunStep? ==> call.input.observed.signals == []
    ensures PaidFor(After(cfg, v, call).state)
  {
    if call.RunStep? && Steppable(v.state.phase) {
      var o := OutcomeOf(cfg, v.state, call.input);
      assert FedBack(v.state, o, call.input.now).noSignal == v.state.noSignal + 1;
    }
  }

  /** The whole-life bound: a loop none of whose steps shows a signal takes at most
      five steps plus one for every resume it is allowed, seven by default. */
  lemma {:induction false} WholeLifeBound(cfg: Config, v0: LoopView, calls: seq<LoopCall>)
    requires IsNew(v0) && NoSignals(calls)
    ensures PaidFor(Run(cfg, v0, calls).state)
    ensures
      var steps := Run(cfg, v0, calls).state.budget.stepsUsed;
      && (cfg.pausePolicy.None? || cfg.pausePolicy.value.maxPauses < 1 ==> steps <= 5)
      && (cfg.pausePolicy.Some? && cfg.pausePolicy.value.maxPauses >= 1 ==>
            steps <= 5 + cfg.pausePolicy.value.maxPauses - 1)
      && (cfg.pausePolicy == Some(DEFAULT_POLICY) ==> steps <= 7)
  {
    hide After;
    if calls != [] {
      var front, last := calls[..|calls| - 1], calls[|calls| - 1];
      WholeLifeBound(cfg, v0, front);
      assert last in calls;
      CallKeepsPaid(cfg, Run(cfg, v0, front), last);
    }
    LimitsHold(cfg, v0, calls);
  }

  const NO_BACKEND := RunStep(StepInput(None, Verdict(true, "", ""), Verdict(true, "", ""),
                                        Verdict(true, "", ""), Observed("", "", [], {}, false), 0.0))
  const GRANTED := ResumeLoop(ResumeInput("human", false, true, 0.0))

  lemma RunMore(cfg: Config, v: LoopView, calls: seq<LoopCall>, call: LoopCall)
    ensures Run(cfg, v, calls + [call]) == After(cfg, Run(cfg, v, calls), call)
  {
    assert (calls + [call])[..|calls|] == calls;
  }

  /** One step without a backend, far from every limit but the streak's. */
  lemma QuietStep(cfg: Config, v: LoopView)
    requires Steppable(v.state.phase) && v.state.policyRejected == 0
    requires v.state.budget.wallSecondsUsed == 0 < v.state.budget.maxWallSeconds
    requires v.state.budget.tokensUsed == 0 && v.state.budget.maxTotalTokens > 100
    requires v.state.budget.stepsUsed < 49 && v.state.budget.maxSteps == 50
    ensures After(cfg, v, NO_BACKEND).state
         == v.state.(phase := if v.state.noSignal + 1 >= 5 then Converged else Running,
                     noSignal := v.state.noSignal + 1,
                     budget := v.state.budget.Consume(1, 0), lastStepAt := Some(0.0))
  {
    assert OutcomeOf(cfg, v.state, NO_BACKEND.input) == Unavailable;
    FedBackFields(v.state, Unavailable, 0.0);
  }

  /** n such steps. */
  lemma {:induction false} QuietSteps(cfg: Config, v: LoopView, n: nat) returns (calls: seq<LoopCall>)
    requires Steppable(v.state.phase) && v.state.policyRejected == 0
    requires v.state.budget.wallSecondsUsed == 0 < v.state.budget.maxWallSeconds
    requires v.state.budget.tokensUsed == 0 && v.state.budget.maxTotalTokens > 100
    requires v.state.budget.stepsUsed == v.state.noSignal == 0 && v.state.budget.maxSteps == 50
    requires v.state.pauseAttempts == 0 && v.state.pausedAt == None && 1 <= n <= 5
    ensures NoSignals(calls)
    ensures
      var s := Run(cfg, v, calls).state;
      && s.budget == v.state.budget.Consume(n, 0) && s.noSignal == n
      && s.policyRejected == s.pauseAttempts == 0 && s.pausedAt == None
      && s.phase == (if n == 5 then Converged else Running)
  {
    hide After, Run;
    var before: seq<LoopCall> := [];
    if n > 1 {
      before := QuietSteps(cfg, v, n - 1);
    } else {
      RunNothing(cfg, v);
    }
    calls := before + [NO_BACKEND];
    RunMore(cfg, v, before, NO_BACKEND);
    QuietStep(cfg, Run(cfg, v, before));
  }

  lemma RunNothing(cfg: Config, v: LoopView)
    ensures Run(cfg, v, []) == v
  {
  }

  /** A converged loop that may still be resumed. */
  ghost predicate Resumable(s: LoopState) {
    && s.phase == Converged && s.noSignal >= 5 && s.pausedAt == None
    && 0 <= s.pauseAttempts < 2 && s.policyRejected == 0
    && s.budget.stepsUsed < 49 && s.budget.maxSteps == 50 && s.budget.tokensUsed == 0
    && s.budget.maxTotalTokens > 100 && s.budget.wallSecondsUsed == 0 < s.budget.maxWallSeconds
  }

  lemma GrantedResume(cfg: Config, v: LoopView)
    requires cfg.pausePolicy == Some(DEFAULT_POLICY) && Resumable(v.state)
    ensures After(cfg, v, GRANTED).state
         == v.state.(phase := Resumed, pauseAttempts := v.state.pauseAttempts + 1,
                     resumedAt := Some(0.0))
  {
  }

  lemma OneMoreAfterResume(cfg: Config, v: LoopView, calls: seq<LoopCall>) returns (more: seq<LoopCall>)
    requires NoSignals(calls) && cfg.pausePolicy == Some(DEFAULT_POLICY)
    requires Resumable(Run(cfg, v, calls).state)
    ensures NoSignals(more)
    ensures
      var s, s' := Run(cfg, v, calls).state, Run(cfg, v, more).state;
      && s'.budget == s.budget.Consume(1, 0)
      && (s.pauseAttempts == 0 && s.budget.stepsUsed < 48 ==>
            Resumable(s') && s'.pauseAttempts == s.pauseAttempts + 1)
  {
    hide After, Run;
    more := calls + [GRANTED] + [NO_BACKEND];
    RunMore(cfg, v, calls, GRANTED);
    RunMore(cfg, v, calls + [GRANTED], NO_BACKEND);
    GrantedResume(cfg, Run(cfg, v, calls));
    QuietStep(cfg, Run(cfg, v, calls + [GRANTED]));
  }

  /** The bound of seven is reached. */
  lemma WholeLifeBoundIsReached() returns (v0: LoopView, calls: seq<LoopCall>)
    ensures IsNew(v0) && v0.state.budget == DEFAULT_BUDGET && NoSignals(calls)
    ensures Run(Config(true, Some(DEFAULT_POLICY)), v0, calls).state.budget.stepsUsed == 7
  {
    hide Run, NoSignals;
    var cfg := Config(true, Some(DEFAULT_POLICY));
    v0 := NewLoop("a", "p", DEFAULT_BUDGET, "", {}, 0.0);
    calls := QuietSteps(cfg, v0, 5);
    calls := OneMoreAfterResume(cfg, v0, calls);
    calls := OneMoreAfterResume(cfg, v0, calls);
  }

  // ------------------------------------------------------- where the code differs

  /** After a denial by the budget gate the loop becomes BUDGET_EXHAUSTED exactly
      when its budget is exhausted without the tokens that were refused. */
  lemma BudgetDenialPhase(cfg: Config, v: LoopView, i: StepInput)
    requires Steppable(v.state.phase) && OutcomeOf(cfg, v.state, i).Denied?
    requires OutcomeOf(cfg, v.state, i).gate == BudgetGate
    ensures After(cfg, v, RunStep(i)).state.phase == BudgetExhausted
       <==> v.state.budget.Consume(1, 0).Exhausted()
  {
  }

  /** So a loop out of tokens is denied and yet goes on. */
  lemma BudgetDenialGoesOn(i: StepInput)
    returns (v: LoopView)
    ensures IsNew(v)
    ensures
      var cfg := Config(true, None);
      && OutcomeOf(cfg, v.state, i) == Denied(BudgetGate, "BUDGET_EXHAUSTED", AbortStep)
      && After(cfg, v, RunStep(i)).state.phase == Running
  {
    v := NewLoop("a", "p", LoopBudget(50, 100, 1800, 0, 0, 0), "", {}, 0.0);
    assert !v.state.budget.Consume(1, 0).Exhausted();
    assert v.state.budget.Consume(0, 100).Exhausted();
  }

  /** Only policy rejections in a row count: any other step, also one that failed
      for want of a backend, starts the streak anew. */
  lemma StreakReset(cfg: Config, v: LoopView, i: StepInput)
    requires Steppable(v.state.phase)
    ensures
      var o := OutcomeOf(cfg, v.state, i);
      After(cfg, v, RunStep(i)).state.policyRejected
        == if o.Denied? && o.gate == PolicyGate then v.state.policyRejected + 1 else 0
  {
  }

  /** When a human's resume through the loop service kills the loop: whenever the
      pause budget is spent, paused or not and approved or not. */
  lemma ResumeKills(cfg: Config, v: LoopView, r: ResumeInput)
    requires cfg.pausePolicy.Some? && !Dead(v.state.phase)
    ensures After(cfg, v, ResumeLoop(r)).state.phase == PolicyBlocked
       <==> !r.byAgent && v.state.pauseAttempts + 1 >= cfg.pausePolicy.value.maxPauses
  {
  }

  /** Clock readings never go back. */
  function ClockOf(c: LoopCall): real {
    match c
    case RunStep(i) => i.now
    case Pause(_, _, _, now) => now
    case Resume(r) => r.now
    case ResumeLoop(r) => r.now
    case EmergencyStop(_, _, now) => now
  }

  ghost predicate ClockRuns(calls: seq<LoopCall>) {
    forall i, j | 0 <= i < j < |calls| :: ClockOf(calls[i]) <= ClockOf(calls[j])
  }

  ghost predicate PausedBefore(s: LoopState, now: real) {
    s.pausedAt.Some? ==> s.pausedAt.value <= now
  }

  lemma CallKeepsWall(cfg: Config, v: LoopView, call: LoopCall)
    requires v.state.budget.wallSecondsUsed == 0 && PausedBefore(v.state, ClockOf(call))
    ensures After(cfg, v, call).state.budget.wallSecondsUsed == 0
    ensures PausedBefore(After(cfg, v, call).state, ClockOf(call))
  {
  }

  /** The wall-clock limit never bites: unless the clock is set back, no loop ever
      uses a wall second, however long it runs or rests. */
  lemma {:induction false} WallNeverUsed(cfg: Config, v0: LoopView, calls: seq<LoopCall>)
    requires IsNew(v0) && ClockRuns(calls)
    ensures Run(cfg, v0, calls).state.budget.wallSecondsUsed == 0
    ensures calls != [] ==> PausedBefore(Run(cfg, v0, calls).state, ClockOf(calls[|calls| - 1]))
  {
    hide After;
    if calls != [] {
      var front, last := calls[..|calls| - 1], calls[|calls| - 1];
      WallNeverUsed(cfg, v0, front);
      CallKeepsWall(cfg, Run(cfg, v0, front), last);
    }
  }

  /** With the default budget the budget gate never denies anything: a loop that
      may step has taken fewer than fifty steps of a hundred tokens. */
  lemma DefaultGateIsSilent(cfg: Config, v0: LoopView, calls: seq<LoopCall>)
    requires IsNew(v0) && v0.state.budget == DEFAULT_BUDGET && ClockRuns(calls)
    requires Steppable(Run(cfg, v0, calls).state.phase)
    ensures BudgetDenial(Run(cfg, v0, calls).state.budget, MOCK_STEP_TOKENS) == None
  {
    LimitsHold(cfg, v0, calls);
    LedgerAlwaysAgrees(cfg, v0, calls);
    WallNeverUsed(cfg, v0, calls);
  }
}
