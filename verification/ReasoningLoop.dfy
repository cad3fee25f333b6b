/** The reasoning-loop services over shared repositories: the states and steps of
    all loops and one audit log. Every method is proved to do to its own loop what
    the transition system says and to leave every other loop alone. */
module ReasoningLoop {
  import opened Wrappers
  import opened LoopSpec

  datatype Owned<T> = Owned(loopId: string, item: T)

  function Tagged<T>(id: string, xs: seq<T>): (r: seq<Owned<T>>)
    ensures |r| == |xs|
  {
    seq(|xs|, i requires 0 <= i < |xs| => Owned(id, xs[i]))
  }

  function For<T>(xs: seq<Owned<T>>, id: string): seq<T> {
    if xs == [] then []
    else
      var last := xs[|xs| - 1];
      For(xs[..|xs| - 1], id) + if last.loopId == id then [last.item] else []
  }

  /** The repositories' contents. */
  datatype World = World(
    states: map<string, LoopState>, steps: seq<Owned<LoopStep>>, audit: seq<Owned<Entry>>)

  function ViewOf(w: World, id: string): LoopView
    requires id in w.states
  {
    LoopView(w.states[id], For(w.steps, id), For(w.audit, id))
  }

  /** The world after loop `id` went from v to v'. */
  function Moved(w: World, id: string, v: LoopView, v': LoopView): World
    requires |v.steps| <= |v'.steps| && |v.ledger| <= |v'.ledger|
  {
    World(w.states[id := v'.state],
          w.steps + Tagged(id, v'.steps[|v.steps|..]),
          w.audit + Tagged(id, v'.ledger[|v.ledger|..]))
  }

  /** A call on loop `id` that answered r: refused and without effect, or done. */
  ghost predicate Did(w: World, id: string, cfg: Config, call: LoopCall, w': World,
                      r: Result<LoopState, LoopError>)
  {
    if id !in w.states then
      w' == w && r == Failure(if call.ResumeLoop? && cfg.pausePolicy.None? then NoPauseControl
                              else LoopNotFound)
    else
      match Next(cfg, ViewOf(w, id), call)
      case Failure(e) => r == Failure(e) && w' == w
      case Success(v) =>
        && r == Success(v.state) && Grown(ViewOf(w, id), v)
        && w' == Moved(w, id, ViewOf(w, id), v)
  }

  predicate Grown(v: LoopView, v': LoopView) {
    v.steps <= v'.steps && v.ledger <= v'.ledger
  }

  lemma NextGrows(cfg: Config, v: LoopView, call: LoopCall)
    ensures Grown(v, After(cfg, v, call))
  {
    hide OutcomeOf, FedBack, EvaluateTermination;
  }

  lemma {:induction false} ForAppend<T>(xs: seq<Owned<T>>, ys: seq<Owned<T>>, id: string)
    ensures For(xs + ys, id) == For(xs, id) + For(ys, id)
  {
    if ys == [] {
      assert xs + ys == xs;
    } else {
      assert (xs + ys)[..|xs + ys| - 1] == xs + ys[..|ys| - 1];
      ForAppend(xs, ys[..|ys| - 1], id);
    }
  }

  lemma {:induction false} ForTagged<T>(id: string, xs: seq<T>, other: string)
    ensures For(Tagged(id, xs), other) == if other == id then xs else []
  {
    if xs != [] {
      assert Tagged(id, xs)[..|xs| - 1] == Tagged(id, xs[..|xs| - 1]);
      ForTagged(id, xs[..|xs| - 1], other);
    }
  }

  /** Loops do not interfere: a move of one loop is seen by that loop only. */
  lemma MovedView(w: World, id: string, v': LoopView, other: string)
    requires id in w.states && Grown(ViewOf(w, id), v') && other in w.states
    ensures other in Moved(w, id, ViewOf(w, id), v').states
    ensures ViewOf(Moved(w, id, ViewOf(w, id), v'), other)
         == if other == id then v' else ViewOf(w, other)
  {
    hide For, Tagged;
    var v := ViewOf(w, id);
    AddedFor(w.steps, id, v'.steps[|v.steps|..], other);
    AddedFor(w.audit, id, v'.ledger[|v.ledger|..], other);
  }

  // ------------------------------------------------------------ many loops at once

  /** A call on the shared store: the creation of a loop, with the state it starts
      from, or a call on a loop. */
  datatype StoreCall =
    | Create(id: string, created: LoopView)
    | On(id: string, call: LoopCall)

  /** The world after a loop was created, anew or once more under its id. */
  function WithLoop(w: World, id: string, v: LoopView): World {
    World(w.states[id := v.state], w.steps + Tagged(id, v.steps), w.audit + Tagged(id, v.ledger))
  }

  function AfterCall(w: World, cfg: Config, c: StoreCall): World {
    match c
    case Create(id, v) => WithLoop(w, id, v)
    case On(id, call) =>
      if id !in w.states then w
      else
        NextGrows(cfg, ViewOf(w, id), call);
        Moved(w, id, ViewOf(w, id), After(cfg, ViewOf(w, id), call))
  }

  /** Calls on any loops of the store, creations among them, in any interleaving. */
  function History(w: World, cfg: Config, calls: seq<StoreCall>): World {
    if calls == [] then w
    else AfterCall(History(w, cfg, calls[..|calls| - 1]), cfg, calls[|calls| - 1])
  }

  /** What a loop is, if it exists, and what its own calls make of it. A loop created
      once more starts over in state but keeps what was recorded. */
  function Seen(w: World, id: string): Option<LoopView> {
    if id in w.states then Some(ViewOf(w, id)) else None
  }

  function OwnCall(cfg: Config, v: Option<LoopView>, c: StoreCall): Option<LoopView> {
    match c
    case Create(_, new_) =>
      if v.None? then Some(new_)
      else Some(LoopView(new_.state, v.value.steps + new_.steps, v.value.ledger + new_.ledger))
    case On(_, call) => if v.None? then None else Some(After(cfg, v.value, call))
  }

  function OwnLife(cfg: Config, v: Option<LoopView>, calls: seq<StoreCall>): Option<LoopView> {
    if calls == [] then v
    else OwnCall(cfg, OwnLife(cfg, v, calls[..|calls| - 1]), calls[|calls| - 1])
  }

  function CallsOf(calls: seq<StoreCall>, id: string): seq<StoreCall> {
    if calls == [] then []
    else
      var last := calls[|calls| - 1];
      CallsOf(calls[..|calls| - 1], id) + if last.id == id then [last] else []
  }

  /** Nothing is recorded of loops that do not exist. */
  ghost predicate Tidy(w: World) {
    forall id | id !in w.states :: For(w.steps, id) == [] && For(w.audit, id) == []
  }

  lemma CreatedView(w: World, id: string, v: LoopView, other: string)
    requires Tidy(w)
    ensures
      var w' := WithLoop(w, id, v);
      && (other != id ==> Seen(w', other) == Seen(w, other)
                          && For(w'.steps, other) == For(w.steps, other)
                          && For(w'.audit, other) == For(w.audit, other))
      && Seen(w', id) == OwnCall(Config(false, None), Seen(w, id), Create(id, v))
  {
    hide For, Tagged;
    AddedFor(w.steps, id, v.steps, other);
    AddedFor(w.audit, id, v.ledger, other);
    AddedFor(w.steps, id, v.steps, id);
    AddedFor(w.audit, id, v.ledger, id);
    assert [] + v.steps == v.steps && [] + v.ledger == v.ledger;
  }

  lemma AddedFor<T>(xs: seq<Owned<T>>, id: string, ys: seq<T>, other: string)
    ensures other == id ==> For(xs + Tagged(id, ys), other) == For(xs, other) + ys
    ensures other != id ==> For(xs + Tagged(id, ys), other) == For(xs, other)
  {
    hide For, Tagged;
    ForAppend(xs, Tagged(id, ys), other);
    ForTagged(id, ys, other);
    assert For(xs, other) + [] == For(xs, other);
  }

  /** A call is seen by its own loop only. */
  lemma CallSeen(w: World, cfg: Config, c: StoreCall, other: string)
    requires Tidy(w)
    ensures Tidy(AfterCall(w, cfg, c))
    ensures Seen(AfterCall(w, cfg, c), other)
         == if other == c.id then OwnCall(cfg, Seen(w, other), c) else Seen(w, other)
  {
    hide After, For, Grown;
    var w' := AfterCall(w, cfg, c);
    match c
    case Create(id, v) =>
      CreatedView(w, id, v, other);
      forall x | x !in w'.states ensures For(w'.steps, x) == [] && For(w'.audit, x) == [] {
        CreatedView(w, id, v, x);
      }
    case On(id, call) =>
      if id in w.states {
        NextGrows(cfg, ViewOf(w, id), call);
        var v' := After(cfg, ViewOf(w, id), call);
        if other in w.states {
          MovedView(w, id, v', other);
        }
        forall x | x !in w'.states ensures For(w'.steps, x) == [] && For(w'.audit, x) == [] {
          MovedElsewhere(w, id, v', x);
        }
      }
  }

  lemma MovedElsewhere(w: World, id: string, v': LoopView, other: string)
    requires id in w.states && Grown(ViewOf(w, id), v') && other != id
    ensures
      var w' := Moved(w, id, ViewOf(w, id), v');
      For(w'.steps, other) == For(w.steps, other) && For(w'.audit, other) == For(w.audit, other)
  {
    hide For, Tagged;
    var v := ViewOf(w, id);
    AddedFor(w.steps, id, v'.steps[|v.steps|..], other);
    AddedFor(w.audit, id, v'.ledger[|v.ledger|..], other);
  }

  /** What became of a loop is what its own calls made of it, whichever other loops
      were created, stepped or stopped in between. */
  lemma {:induction false} LoopsAreIndependent(w: World, cfg: Config, calls: seq<StoreCall>, id: string)
    requires Tidy(w)
    ensures Tidy(History(w, cfg, calls))
    ensures Seen(History(w, cfg, calls), id) == OwnLife(cfg, Seen(w, id), CallsOf(calls, id))
  {
    hide Seen, AfterCall, Tidy, OwnCall;
    if calls != [] {
      var front, last := calls[..|calls| - 1], calls[|calls| - 1];
      LoopsAreIndependent(w, cfg, front, id);
      CallSeen(History(w, cfg, front), cfg, last, id);
      if last.id == id {
        OwnMore(cfg, Seen(w, id), CallsOf(front, id), last);
      } else {
        assert CallsOf(calls, id) == CallsOf(front, id);
      }
    }
  }

  lemma OwnMore(cfg: Config, v: Option<LoopView>, calls: seq<StoreCall>, c: StoreCall)
    ensures OwnLife(cfg, v, calls + [c]) == OwnCall(cfg, OwnLife(cfg, v, calls), c)
  {
    assert (calls + [c])[..|calls|] == calls;
  }

  function LoopCalls(id: string, calls: seq<LoopCall>): (r: seq<StoreCall>)
    ensures |r| == |calls|
  {
    seq(|calls|, i requires 0 <= i < |calls| => On(id, calls[i]))
  }

  lemma {:induction false} OwnRun(cfg: Config, v: LoopView, id: string, calls: seq<LoopCall>)
    ensures OwnLife(cfg, None, [Create(id, v)] + LoopCalls(id, calls)) == Some(Run(cfg, v, calls))
  {
    hide After;
    var own := [Create(id, v)] + LoopCalls(id, calls);
    if calls == [] {
      assert own == [Create(id, v)] && own[..0] == [];
    } else {
      assert own[..|own| - 1] == [Create(id, v)] + LoopCalls(id, calls[..|calls| - 1]);
      OwnRun(cfg, v, id, calls[..|calls| - 1]);
    }
  }

  /** So everything proved of the life of a single loop holds of each loop that was
      created once in a store that began empty. */
  lemma CreatedLoopRuns(cfg: Config, calls: seq<StoreCall>, id: string, v: LoopView, own: seq<LoopCall>)
    requires CallsOf(calls, id) == [Create(id, v)] + LoopCalls(id, own)
    ensures Seen(History(World(map[], [], []), cfg, calls), id) == Some(Run(cfg, v, own))
  {
    LoopsAreIndependent(World(map[], [], []), cfg, calls, id);
    OwnRun(cfg, v, id, own);
  }

  // ---------------------------------------------------------------- repositories

  class LoopRepository {
    var states: map<string, LoopState>
    var steps: seq<Owned<LoopStep>>
    var audit: seq<Owned<Entry>>

    constructor ()
      ensures Contents() == World(map[], [], [])
    {
      states, steps, audit := map[], [], [];
    }

    function Contents(): World
      reads this
    {
      World(states, steps, audit)
    }

    method Save(id: string, s: LoopState)
      modifies this`states
      ensures states == old(states)[id := s]
    {
      states := states[id := s];
    }

    method AddStep(id: string, step: LoopStep)
      modifies this`steps
      ensures steps == old(steps) + Tagged(id, [step])
    {
      steps := steps + [Owned(id, step)];
    }

    method Record(id: string, actor: string, event: Event)
      modifies this`audit
      ensures audit == old(audit) + Tagged(id, [Entry(actor, event)])
    {
      audit := audit + [Owned(id, Entry(actor, event))];
    }
  }

  lemma TaggedAppend<T>(id: string, xs: seq<T>, ys: seq<T>)
    ensures Tagged(id, xs + ys) == Tagged(id, xs) + Tagged(id, ys)
  {
  }

  lemma TaggedNothing<T>(id: string)
    ensures Tagged<T>(id, []) == []
  {
  }

  /** Recording a step's entries, saving its state and announcing its end moves the
      loop as a settled step does. */
  lemma SettledMoves(w: World, id: string, o: Outcome, now: real)
    requires id in w.states
    ensures
      var v := ViewOf(w, id);
      var v' := Settled(v, o, now);
      && Grown(v, v')
      && Moved(w, id, v, v')
         == World(w.states[id := v'.state], w.steps + Tagged(id, StepsOf(o)),
                  w.audit + Tagged(id, EventsOf(o))
                    + Tagged(id, Announced(v'.state.phase, ViaOf(o))))
  {
    hide FedBack, EvaluateTermination, StepsOf, EventsOf, Announced, ViaOf, Tagged, For;
    var v := ViewOf(w, id);
    var v' := Settled(v, o, now);
    assert v'.steps[|v.steps|..] == StepsOf(o);
    var end := Announced(v'.state.phase, ViaOf(o));
    assert v'.ledger[|v.ledger|..] == EventsOf(o) + end;
    TaggedAppend(id, EventsOf(o), end);
  }

  lemma NotedMoves(w: World, id: string, s: LoopState, e: Entry)
    requires id in w.states
    ensures
      var v := ViewOf(w, id);
      var v' := LoopView(s, v.steps, v.ledger + [e]);
      && Grown(v, v')
      && Moved(w, id, v, v') == World(w.states[id := s], w.steps, w.audit + Tagged(id, [e]))
  {
    hide Tagged, For;
    var v := ViewOf(w, id);
    assert (v.ledger + [e])[|v.ledger|..] == [e];
    assert v.steps[|v.steps|..] == [];
    TaggedNothing<LoopStep>(id);
  }

  lemma StayedMoves(w: World, id: string)
    requires id in w.states
    ensures Grown(ViewOf(w, id), ViewOf(w, id))
    ensures Moved(w, id, ViewOf(w, id), ViewOf(w, id)) == w
  {
    var v := ViewOf(w, id);
    assert v.steps[|v.steps|..] == [] && v.ledger[|v.ledger|..] == [];
    assert w.states[id := w.states[id]] == w.states;
  }

  // --------------------------------------------------------------- pause service

  class PauseControlService {
    const repo: LoopRepository
    const policy: TerminationPolicy

    constructor (repo: LoopRepository, policy: TerminationPolicy)
      ensures this.repo == repo && this.policy == policy
    {
      this.repo, this.policy := repo, policy;
    }

    method Pause(id: string, actor: string, byAgent: bool, reason: string, now: real)
      returns (r: Result<LoopState, LoopError>)
      modifies repo
      ensures byAgent ==> r == Failure(HumanOnly) && repo.Contents() == old(repo.Contents())
      ensures !byAgent ==> forall gate ::
        Did(old(repo.Contents()), id, Config(gate, Some(policy)),
            LoopCall.Pause(actor, byAgent, reason, now), repo.Contents(), r)
    {
      if byAgent {
        return Failure(HumanOnly);
      }
      if id !in repo.states {
        return Failure(LoopNotFound);
      }
      var s := repo.states[id];
      if s.phase == Paused {
        StayedMoves(repo.Contents(), id);
        return Success(s);
      }
      if Dead(s.phase) {
        return Failure(DeadLoop);
      }
      var next := s.(phase := Paused, pausedAt := Some(now));
      NotedMoves(repo.Contents(), id, next, Entry(actor, LoopPaused(reason)));
      repo.Save(id, next);
      repo.Record(id, actor, LoopPaused(reason));
      return Success(next);
    }

    method Resume(id: string, request: ResumeInput) returns (r: Result<LoopState, LoopError>)
      modifies repo
      ensures request.byAgent ==>
        r == Failure(HumanOnly) && repo.Contents() == old(repo.Contents())
      ensures !request.byAgent ==> forall gate ::
        Did(old(repo.Contents()), id, Config(gate, Some(policy)), LoopCall.Resume(request),
            repo.Contents(), r)
    {
      if request.byAgent {
        return Failure(HumanOnly);
      }
      if id !in repo.states {
        return Failure(LoopNotFound);
      }
      var s := repo.states[id];
      if Dead(s.phase) {
        return Failure(DeadLoop);
      }
      if policy.PauseBudgetExceeded(s.pauseAttempts + 1) {
        return Failure(PauseBudgetSpent);
      }
      if !request.approved {
        return Failure(NotApproved);
      }
      var credit := if s.pausedAt.Some? then request.now - s.pausedAt.value else 0.0;
      var event := LoopResumed(s.pauseAttempts + 1, Truncated(credit));
      var next := s.(phase := Resumed, pauseAttempts := s.pauseAttempts + 1, pausedAt := None,
                     resumedAt := Some(request.now), budget := s.budget.Credit(credit));
      NotedMoves(repo.Contents(), id, next, Entry(request.actor, event));
      repo.Save(id, next);
      repo.Record(id, request.actor, event);
      return Success(next);
    }
  }

  // ---------------------------------------------------------------- orchestrator

  datatype StepResult = StepResult(phase: LoopPhase, recorded: Option<LoopStep>, signals: nat)

  class ReasoningLoopOrchestrator {
    const repo: LoopRepository
    const budgetGate: bool
    const pauseControl: Option<PauseControlService>

    constructor (repo: LoopRepository, budgetGate: bool, pauseControl: Option<PauseControlService>)
      requires pauseControl.Some? ==> pauseControl.value.repo == repo
      ensures this.repo == repo && this.budgetGate == budgetGate
      ensures this.pauseControl == pauseControl && Valid()
    {
      this.repo, this.budgetGate, this.pauseControl := repo, budgetGate, pauseControl;
    }

    ghost predicate Valid() {
      pauseControl.Some? ==> pauseControl.value.repo == repo
    }

    function Composition(): Config {
      Config(budgetGate, if pauseControl.Some? then Some(pauseControl.value.policy) else None)
    }

    method CreateLoop(id: string, assessmentId: string, policySnapshot: string, contextHash: string,
                      required: set<string>, now: real)
      returns (s: LoopState)
      modifies repo
      ensures
        var v := NewLoop(assessmentId, policySnapshot, DEFAULT_BUDGET, contextHash, required, now);
        IsNew(v) && s == v.state && repo.Contents() == WithLoop(old(repo.Contents()), id, v)
    {
      TaggedNothing<LoopStep>(id);
      s := LoopState(assessmentId, Initializing, policySnapshot, DEFAULT_BUDGET, contextHash,
                     required, {}, 0, 0, now, None, 0, None, None);
      repo.Save(id, s);
      repo.Record(id, LOOP_ACTOR, LoopCreated(required));
    }

    /** One step, or nothing for an idle loop. The returned step is the one that was
        executed and recorded, if one was. */
    method RunStep(id: string, i: StepInput) returns (r: Result<StepResult, LoopError>)
      modifies repo
      ensures
        var w, w' := old(repo.Contents()), repo.Contents();
        Did(w, id, Composition(), LoopCall.RunStep(i), w',
            if r.Failure? then Failure(r.error)
            else if id in w'.states then Success(w'.states[id]) else Failure(LoopNotFound))
      ensures r.Success? ==>
        var w, w' := old(repo.Contents()), repo.Contents();
        && id in w.states && id in w'.states && r.value.phase == w'.states[id].phase
        && w'.steps == w.steps + Tagged(id, if r.value.recorded.Some? then [r.value.recorded.value]
                                            else [])
        && r.value.signals
           == if r.value.recorded.Some? then |r.value.recorded.value.signals| else 0
      ensures r.Success? ==>
        var s := old(repo.states)[id];
        r.value.recorded == if s.phase in {Initializing, Running, Resumed}
                               && PassesGates(Composition(), s.budget, i)
                            then Some(StepFor(i)) else None
    {
      hide PassesGates, NotesRefusal, StepFor, StepsOf, EventsOf, Settled, FedBack, For, Announced;
      if id !in repo.states {
        return Failure(LoopNotFound);
      }
      var s := repo.states[id];
      GatesInOrder(Composition(), s, i);
      if Terminal(s.phase) {
        return Failure(AlreadyTerminal);
      }
      if Idle(s.phase) {
        StayedMoves(repo.Contents(), id);
        TaggedNothing<LoopStep>(id);
        return Success(StepResult(s.phase, None, 0));
      }
      var result: StepResult;
      if budgetGate {
        var denial := BudgetDenial(s.budget, MOCK_STEP_TOKENS);
        if denial.Some? {
          result := RecordGateRejected(id, AbortStep, BudgetGate,
                                       CodeOr(denial.value, "BUDGET_DENIED"), i);
          return Success(result);
        }
      }
      if i.proposal.None? {
        result := RecordBackendUnavailable(id, i);
        return Success(result);
      }
      var proposed := i.proposal.value.actionType;
      if !i.schema.passed {
        result := RecordGateRejected(id, proposed, SchemaGate,
                                     CodeOr(i.schema.denyCode, "SCHEMA_DENIED"), i);
        return Success(result);
      }
      if !i.policy.passed {
        result := RecordGateRejected(id, proposed, PolicyGate,
                                     CodeOr(i.policy.denyCode, "POLICY_DENIED"), i);
        return Success(result);
      }
      if !i.permit.passed {
        result := RecordGateRejected(id, proposed, PermitGate,
                                     CodeOr(i.permit.denyCode, "PERMIT_DENIED"), i);
        return Success(result);
      }
      result := Execute(id, i);
      return Success(result);
    }

    method Execute(id: string, i: StepInput) returns (result: StepResult)
      requires id in repo.states && Steppable(repo.states[id].phase) && i.proposal.Some?
      requires OutcomeOf(Composition(), repo.states[id], i)
            == Performed(i.proposal.value, i.permit.permitId, i.observed)
      modifies repo
      ensures SettledBy(old(repo.Contents()), id, i, repo.Contents(), result)
    {
      ghost var w := repo.Contents();
      ghost var o := OutcomeOf(Composition(), repo.states[id], i);
      SettledMoves(w, id, o, i.now);
      var s := repo.states[id];
      var obs := i.observed;
      var step := LoopStep(obs.stepId, i.proposal.value, MOCK_STEP_TOKENS, i.permit.permitId,
                           obs.resultDigest, obs.signals, obs.matched, obs.oracleProgressed);
      repo.AddStep(id, step);
      var proposal := StepProposed(obs.stepId, step.action.actionType, step.tokensUsed);
      var execution := StepExecuted(obs.stepId, obs.signals);
      TaggedAppend(id, [Entry(LOOP_ACTOR, proposal)], [Entry(LOOP_ACTOR, execution)]);
      repo.Record(id, LOOP_ACTOR, proposal);
      repo.Record(id, LOOP_ACTOR, execution);
      assert repo.audit == w.audit + Tagged(id, EventsOf(o));
      var next := Feedback(s, step.tokensUsed, step.matched, true, |step.signals|, i.now);
      next := SaveAndAnnounce(id, next, obs.stepId);
      result := StepResult(next.phase, Some(step), |obs.signals|);
    }

    method RecordBackendUnavailable(id: string, i: StepInput) returns (result: StepResult)
      requires id in repo.states && Steppable(repo.states[id].phase)
      requires OutcomeOf(Composition(), repo.states[id], i) == Unavailable
      modifies repo
      ensures SettledBy(old(repo.Contents()), id, i, repo.Contents(), result)
    {
      SettledMoves(repo.Contents(), id, Unavailable, i.now);
      TaggedNothing<LoopStep>(id);
      var s := repo.states[id];
      repo.Record(id, LOOP_ACTOR, BackendUnavailable);
      var next := Feedback(s, 0, {}, true, 0, i.now);
      next := SaveAndAnnounce(id, next, "backend_unavailable");
      result := StepResult(next.phase, None, 0);
    }

    method RecordGateRejected(id: string, proposed: ActionType, gate: Gate, code: string, i: StepInput)
      returns (result: StepResult)
      requires id in repo.states && Steppable(repo.states[id].phase)
      requires OutcomeOf(Composition(), repo.states[id], i) == Denied(gate, code, proposed)
      modifies repo
      ensures SettledBy(old(repo.Contents()), id, i, repo.Contents(), result)
    {
      SettledMoves(repo.Contents(), id, Denied(gate, code, proposed), i.now);
      TaggedNothing<LoopStep>(id);
      var s := repo.states[id];
      repo.Record(id, LOOP_ACTOR, GateRejected(gate, code, proposed));
      var next := Feedback(s, 0, {}, gate != PolicyGate, 0, i.now);
      next := SaveAndAnnounce(id, next, "gate_rejected");
      result := StepResult(next.phase, None, 0);
    }

    /** The step settled the loop: its whole effect, and what is returned of it. */
    ghost predicate SettledBy(w: World, id: string, i: StepInput, w': World, result: StepResult) {
      && id in w.states && Steppable(w.states[id].phase)
      && var v := ViewOf(w, id);
         var o := OutcomeOf(Composition(), v.state, i);
         var v' := Settled(v, o, i.now);
         && Grown(v, v') && w' == Moved(w, id, v, v')
         && w'.steps == w.steps + Tagged(id, StepsOf(o))
         && result.phase == v'.state.phase
         && StepsOf(o) == (if result.recorded.Some? then [result.recorded.value] else [])
         && result.signals
            == if result.recorded.Some? then |result.recorded.value.signals| else 0
    }

    method SaveAndAnnounce(id: string, s: LoopState, via: string) returns (next: LoopState)
      modifies repo`states, repo`audit
      ensures next == s.(phase := EvaluateTermination(s, DEFAULT_POLICY))
      ensures repo.states == old(repo.states)[id := next]
      ensures repo.audit == old(repo.audit) + Tagged(id, Announced(next.phase, via))
    {
      next := s.(phase := EvaluateTermination(s, DEFAULT_POLICY));
      repo.Save(id, next);
      TaggedNothing<Entry>(id);
      if Terminal(next.phase) {
        repo.Record(id, LOOP_ACTOR, LoopTerminated(next.phase, via));
      }
    }

    method EmergencyStop(id: string, actor: string, reason: string, now: real)
      returns (r: Result<LoopState, LoopError>)
      modifies repo
      ensures Did(old(repo.Contents()), id, Composition(),
                  LoopCall.EmergencyStop(actor, reason, now), repo.Contents(), r)
    {
      if id !in repo.states {
        return Failure(LoopNotFound);
      }
      var s := repo.states[id];
      if s.phase == EmergencyStopped {
        StayedMoves(repo.Contents(), id);
        return Success(s);
      }
      var next := s.(phase := EmergencyStopped, lastStepAt := Some(now));
      var event := LoopTerminated(EmergencyStopped, "emergency_stop");
      NotedMoves(repo.Contents(), id, next, Entry(actor, event));
      repo.Save(id, next);
      repo.Record(id, actor, event);
      return Success(next);
    }

    /** Resume through the pause service; a spent pause budget ends the loop. */
    method ResumeLoop(id: string, request: ResumeInput) returns (r: Result<LoopState, LoopError>)
      requires Valid()
      modifies repo
      ensures pauseControl.Some? && request.byAgent ==>
        r == Failure(HumanOnly) && repo.Contents() == old(repo.Contents())
      ensures pauseControl.None? || !request.byAgent ==>
        Did(old(repo.Contents()), id, Composition(), LoopCall.ResumeLoop(request),
            repo.Contents(), r)
    {
      if pauseControl.None? {
        return Failure(NoPauseControl);
      }
      r := pauseControl.value.Resume(id, request);
      if !request.byAgent {
        assert Did(old(repo.Contents()), id, Config(budgetGate, Some(pauseControl.value.policy)),
                   LoopCall.Resume(request), repo.Contents(), r);
      }
      if r == Failure(PauseBudgetSpent) {
        r := ForcePauseBudgetTermination(id, request.actor, request.now);
      }
    }

    method ForcePauseBudgetTermination(id: string, actor: string, now: real)
      returns (r: Result<LoopState, LoopError>)
      modifies repo
      ensures id !in old(repo.states) ==>
        r == Failure(LoopNotFound) && repo.Contents() == old(repo.Contents())
      ensures id in old(repo.states) ==>
        var v := ViewOf(old(repo.Contents()), id);
        var v' := Stopped(v, PolicyBlocked, actor, "pause_budget", now);
        && r == Success(v'.state) && Grown(v, v')
        && repo.Contents() == Moved(old(repo.Contents()), id, v, v')
    {
      if id !in repo.states {
        return Failure(LoopNotFound);
      }
      var s := repo.states[id];
      var next := s.(phase := PolicyBlocked, lastStepAt := Some(now));
      var event := LoopTerminated(PolicyBlocked, "pause_budget");
      NotedMoves(repo.Contents(), id, next, Entry(actor, event));
      repo.Save(id, next);
      repo.Record(id, actor, event);
      return Success(next);
    }
  }
}
