/** The assessment lifecycle: planning, approval, start, the executor's marks, the
    control plane's pause, resume and cancel, and the executor's control gate. Each
    call is one atomic step on the repository; the lemmas are about every
    interleaving of calls by any callers. */
module Assessments {
  import opened Wrappers
  import opened Plans
  import Rounds

  datatype AssessmentStatus =
    | Draft | Planned | AwaitingApproval | Approved | Rejected | Queued | Running | Paused
    | Completed | Partial | Failed | Cancelled

  datatype ControlState = NoSignal | PauseRequested | ResumeRequested | CancelRequested

  datatype ExecutionMode = ApprovalMode | ScopeAutopilot

  datatype Assessment = Assessment(
    id: string, projectId: string, scopeSnapshotId: string, mode: ExecutionMode,
    status: AssessmentStatus, activePlanId: Option<string>, approvalId: Option<string>,
    control: ControlState)

  datatype Approval = Approval(
    id: string, assessmentId: string, planDigest: string, scopeDigest: string,
    mode: ExecutionMode, risks: set<RiskClass>, capabilities: set<string>, approvedBy: string,
    digest: string)

  /** The canonical digests of a plan and of an approval's contents. */
  datatype Digests = Digests(
    plan: DigestFunction,
    approval: (string, string, string, ExecutionMode, set<RiskClass>, set<string>, string) -> string)

  datatype World = World(
    assessments: map<string, Assessment>, plans: map<string, ExecutionPlan>,
    approvals: map<string, Approval>)

  function AllowedFrom(s: AssessmentStatus): set<AssessmentStatus> {
    match s
    case Draft => {AwaitingApproval}
    case AwaitingApproval => {Approved, Rejected, AwaitingApproval}
    case Approved => {Queued}
    case Queued => {Running, Cancelled}
    case Running => {Completed, Partial, Failed, Paused, Cancelled}
    case Paused => {Running, Cancelled}
    case _ => {}
  }

  // ---------------------------------------------------------------------- calls

  /** Who asks: a human, someone who is not, or an agent with a grant whose check
      allows or denies it at that moment. */
  datatype Caller = Human | NotHuman | GrantDenied | GrantAllowed(grantId: string)

  datatype Call =
    | Create(id: string, projectId: string, scopeSnapshotId: string, mode: ExecutionMode)
    | AttachPlan(id: string, planId: string, steps: seq<PlanStep>)
    | Approve(id: string, approvalId: string, approvedBy: string, risks: set<RiskClass>,
              capabilities: set<string>, scopeDigest: string, caller: Caller)
    | Reject(id: string, reason: string, caller: Caller)
    | Start(id: string, caller: Caller)
    | MarkRunning(id: string)
    | Complete(id: string)
    | Fail(id: string)
    | Pause(id: string)
    | Resume(id: string)
    | Cancel(id: string)
    | ReadGate(id: string)

  datatype ServiceError =
    | NotFound | PermissionDenied | IllegalTransition | MissingIdentifier
    | PlanRefused(error: PlanError) | NoPlan | PlanMissing | MissingDigest | NoReason | NoApproval

  function Allows(c: Caller): bool {
    c == Human || c.GrantAllowed?
  }

  function ApproverOf(c: Caller, approvedBy: string): string {
    if c.GrantAllowed? then "grant:" + c.grantId else approvedBy
  }

  function Blank(s: string): bool {
    forall i | 0 <= i < |s| :: s[i] in {' ', '\t', '\n', '\r'}
  }

  ghost function PlanRefusal(steps: seq<PlanStep>): Option<PlanError> {
    if Accepts(1, steps) then None
    else Some(if !UniqueKeys(steps) then DuplicateKeys
              else if !ClosedSteps(steps) then UnknownDependency
              else DependencyCycle)
  }

  function Stored(w: World, a: Assessment): World {
    w.(assessments := w.assessments[a.id := a])
  }

  /** A move to another status, if the table allows it. */
  function Moved(w: World, a: Assessment, to: AssessmentStatus, control: ControlState)
    : Result<World, ServiceError> {
    if to !in AllowedFrom(a.status) then Failure(IllegalTransition)
    else Success(Stored(w, a.(status := to, control := control)))
  }

  function PlanFor(d: Digests, id: string, planId: string, steps: seq<PlanStep>): ExecutionPlan {
    ExecutionPlan(planId, id, 1, steps, d.plan(id, 1, steps))
  }

  /** An approval carries the digest of its own contents. */
  function Sealed(d: Digests, q: Approval): Approval {
    q.(digest := d.approval(q.assessmentId, q.planDigest, q.scopeDigest, q.mode, q.risks,
                            q.capabilities, q.approvedBy))
  }

  function ApprovalFor(d: Digests, w: World, a: Assessment, call: Call): (r: Approval)
    requires call.Approve? && a.activePlanId.Some? && a.activePlanId.value in w.plans
    ensures r.id == call.approvalId
  {
    Sealed(d, Approval(call.approvalId, a.id, w.plans[a.activePlanId.value].digest,
                       call.scopeDigest, a.mode, call.risks, call.capabilities,
                       ApproverOf(call.caller, call.approvedBy), ""))
  }

  function ApprovedBy(d: Digests, w: World, a: Assessment, call: Call): Result<World, ServiceError>
    requires call.Approve?
  {
    if a.activePlanId.None? then Failure(NoPlan)
    else if AssessmentStatus.Approved !in AllowedFrom(a.status) then Failure(IllegalTransition)
    else if a.activePlanId.value !in w.plans then Failure(PlanMissing)
    else if w.plans[a.activePlanId.value].digest == "" || call.scopeDigest == "" then
      Failure(MissingDigest)
    else
      var approval := ApprovalFor(d, w, a, call);
      Success(Stored(w.(approvals := w.approvals[approval.id := approval]),
                     a.(status := AssessmentStatus.Approved, approvalId := Some(approval.id))))
  }

  ghost function ApplyTo(d: Digests, w: World, a: Assessment, call: Call)
    : Result<World, ServiceError>
  {
    match call
    case AttachPlan(id, planId, steps) =>
      if AwaitingApproval !in AllowedFrom(a.status) then Failure(IllegalTransition)
      else if PlanRefusal(steps).Some? then Failure(PlanRefused(PlanRefusal(steps).value))
      else Success(Stored(w.(plans := w.plans[planId := PlanFor(d, id, planId, steps)]),
                          a.(status := AwaitingApproval, activePlanId := Some(planId))))
    case Approve(_, _, _, _, _, _, _) => ApprovedBy(d, w, a, call)
    case Reject(_, reason, _) =>
      if Rejected in AllowedFrom(a.status) && Blank(reason) then Failure(NoReason)
      else Moved(w, a, Rejected, a.control)
    case Start(_, _) =>
      if Queued !in AllowedFrom(a.status) then Failure(IllegalTransition)
      else if a.activePlanId.None? then Failure(NoPlan)
      else if a.approvalId.None? then Failure(NoApproval)
      else Moved(w, a, Queued, a.control)
    case MarkRunning(_) => Moved(w, a, Running, a.control)
    case Complete(_) => Moved(w, a, Completed, a.control)
    case Fail(_) => Moved(w, a, Failed, a.control)
    case Pause(_) => Moved(w, a, Paused, PauseRequested)
    case Resume(_) => Moved(w, a, Running, ResumeRequested)
    case Cancel(_) => Moved(w, a, Cancelled, CancelRequested)
    case _ => Success(Stored(w, a.(control := NoSignal)))
  }

  function Permits(call: Call): bool {
    match call
    case Approve(_, _, _, _, _, _, c) => Allows(c)
    case Reject(_, _, c) => c == Human
    case Start(_, c) => Allows(c)
    case _ => true
  }

  ghost function Apply(d: Digests, w: World, call: Call): Result<World, ServiceError> {
    if call.Create? then
      if call.id == "" || call.projectId == "" || call.scopeSnapshotId == "" then
        Failure(MissingIdentifier)
      else
        Success(Stored(w, Assessment(call.id, call.projectId, call.scopeSnapshotId, call.mode, Draft,
                                     None, None, NoSignal)))
    else if !Permits(call) then Failure(PermissionDenied)
    else if call.id !in w.assessments then
      if call.ReadGate? then Success(w) else Failure(NotFound)
    else ApplyTo(d, w, w.assessments[call.id], call)
  }

  ghost function After(d: Digests, w: World, call: Call): World {
    var r := Apply(d, w, call);
    if r.Success? then r.value else w
  }

  ghost function Run(d: Digests, w: World, calls: seq<Call>): World {
    if calls == [] then w
    else After(d, Run(d, w, calls[..|calls| - 1]), calls[|calls| - 1])
  }

  /** What the gate answers: the pending signal; a vanished assessment is cancelled. */
  function GateAnswer(w: World, id: string): Rounds.Decision {
    if id !in w.assessments then Rounds.Cancel
    else
      match w.assessments[id].control
      case PauseRequested => Rounds.Pause
      case CancelRequested => Rounds.Cancel
      case _ => Rounds.Continue
  }

  // ------------------------------------------------------------------ invariants

  /** Statuses that can only be reached through APPROVED. */
  predicate ApprovedOnce(s: AssessmentStatus) {
    s !in {Draft, Planned, AwaitingApproval, Rejected}
  }

  /** The active plan is this assessment's own accepted plan, and once approved the
      approval names exactly that plan's digest. */
  ghost predicate Pinned(d: Digests, w: World, id: string)
    requires id in w.assessments
  {
    var a := w.assessments[id];
    && a.id == id
    && (a.activePlanId.Some? ==>
          && a.activePlanId.value in w.plans
          && var p := w.plans[a.activePlanId.value];
             p == PlanFor(d, id, a.activePlanId.value, p.steps) && Accepts(1, p.steps))
    && (ApprovedOnce(a.status) ==>
          && a.activePlanId.Some? && a.approvalId.Some? && a.approvalId.value in w.approvals
          && w.approvals[a.approvalId.value].assessmentId == id
          && w.approvals[a.approvalId.value].planDigest == w.plans[a.activePlanId.value].digest
          && w.approvals[a.approvalId.value] == Sealed(d, w.approvals[a.approvalId.value]))
  }

  ghost predicate AllPinned(d: Digests, w: World) {
    forall id | id in w.assessments :: Pinned(d, w, id)
  }

  /** New ids are new. */
  predicate Fresh(w: World, call: Call) {
    match call
    case Create(id, _, _, _) => id !in w.assessments
    case AttachPlan(_, planId, _) => planId !in w.plans
    case Approve(_, approvalId, _, _, _, _, _) => approvalId !in w.approvals
    case _ => true
  }

  ghost predicate AllFresh(d: Digests, w: World, calls: seq<Call>) {
    calls != [] ==>
      && AllFresh(d, w, calls[..|calls| - 1])
      && Fresh(Run(d, w, calls[..|calls| - 1]), calls[|calls| - 1])
  }

  /** Every other assessment is as it was. */
  ghost predicate OnlyTouches(w: World, w': World, own: string) {
    && (forall id | id in w.assessments :: id in w'.assessments)
    && (forall id | id in w.assessments && id != own :: w'.assessments[id] == w.assessments[id])
    && (forall id | id in w'.assessments && id != own :: id in w.assessments)
  }

  /** Stored plans and approvals are never changed or removed. */
  ghost predicate KeepsRecords(w: World, w': World) {
    && (forall p | p in w.plans :: p in w'.plans && w'.plans[p] == w.plans[p])
    && (forall q | q in w.approvals :: q in w'.approvals && w'.approvals[q] == w.approvals[q])
  }

  lemma CallTouchesItsOwn(d: Digests, w: World, call: Call)
    requires AllPinned(d, w) && Fresh(w, call)
    ensures OnlyTouches(w, After(d, w, call), call.id)
  {
    hide Accepts, PlanRefusal, Blank, AllowedFrom, PlanFor, ApprovalFor;
    if call.id in w.assessments {
      assert Pinned(d, w, call.id);
    }
  }

  lemma CallKeepsRecords(d: Digests, w: World, call: Call)
    requires Fresh(w, call)
    ensures KeepsRecords(w, After(d, w, call))
  {
    hide Accepts, PlanRefusal, Blank, AllowedFrom, PlanFor, ApprovalFor;
  }

  lemma CallPinsItsOwn(d: Digests, w: World, call: Call)
    requires AllPinned(d, w) && Fresh(w, call) && call.id in After(d, w, call).assessments
    ensures Pinned(d, After(d, w, call), call.id)
  {
    hide Accepts, Blank;
    if call.id in w.assessments {
      assert Pinned(d, w, call.id);
    }
  }

  lemma CallKeepsPinned(d: Digests, w: World, call: Call)
    requires AllPinned(d, w) && Fresh(w, call)
    ensures AllPinned(d, After(d, w, call))
  {
    hide Accepts, Apply, PlanFor;
    var w' := After(d, w, call);
    CallTouchesItsOwn(d, w, call);
    CallKeepsRecords(d, w, call);
    forall id | id in w'.assessments ensures Pinned(d, w', id) {
      if id == call.id {
        CallPinsItsOwn(d, w, call);
      } else {
        assert Pinned(d, w, id);
      }
    }
  }

  /** Approval pins the executed plan, in every reachable world. */
  lemma {:induction false} ApprovalPinsThePlan(d: Digests, w: World, calls: seq<Call>)
    requires AllPinned(d, w) && AllFresh(d, w, calls)
    ensures AllPinned(d, Run(d, w, calls))
  {
    hide AllPinned, After, Fresh;
    if calls != [] {
      ApprovalPinsThePlan(d, w, calls[..|calls| - 1]);
      CallKeepsPinned(d, Run(d, w, calls[..|calls| - 1]), calls[|calls| - 1]);
    }
  }

  /** The call was on this assessment and took effect. */
  ghost predicate Took(d: Digests, w: World, call: Call, id: string) {
    call.id == id && Apply(d, w, call).Success?
  }

  /** The row a call leaves that took effect. */
  function RowAfter(a: Assessment, call: Call): Assessment {
    match call
    case AttachPlan(_, planId, _) => a.(status := AwaitingApproval, activePlanId := Some(planId))
    case Approve(_, approvalId, _, _, _, _, _) =>
      a.(status := AssessmentStatus.Approved, approvalId := Some(approvalId))
    case Reject(_, _, _) => a.(status := Rejected)
    case Start(_, _) => a.(status := Queued)
    case MarkRunning(_) => a.(status := Running)
    case Complete(_) => a.(status := Completed)
    case Fail(_) => a.(status := Failed)
    case Pause(_) => a.(status := Paused, control := PauseRequested)
    case Resume(_) => a.(status := Running, control := ResumeRequested)
    case Cancel(_) => a.(status := Cancelled, control := CancelRequested)
    case _ => a.(control := NoSignal)
  }

  /** What a call makes of any one assessment. */
  lemma RowIs(d: Digests, w: World, call: Call, id: string)
    requires AllPinned(d, w) && Fresh(w, call) && id in w.assessments
    ensures id in After(d, w, call).assessments
    ensures After(d, w, call).assessments[id]
         == if Took(d, w, call, id) then RowAfter(w.assessments[id], call) else w.assessments[id]
    ensures Took(d, w, call, id) ==>
      !call.Create? && (call.ReadGate? || RowAfter(w.assessments[id], call).status
                                            in AllowedFrom(w.assessments[id].status))
    ensures call.ReadGate? && call.id == id ==> Took(d, w, call, id)
  {
    hide Accepts, Blank, PlanFor, PlanRefusal, AllowedFrom, Sealed;
    assert Pinned(d, w, id);
    if call.id in w.assessments {
      assert Pinned(d, w, call.id);
    }
  }

  // -------------------------------------------------------------- who may do what

  /** When a call on an assessment takes effect: who may ask, and at which status. */
  ghost predicate TakesEffect(w: World, a: Assessment, call: Call) {
    match call
    case Create(_, _, _, _) => false
    case AttachPlan(_, _, steps) => a.status in {Draft, AwaitingApproval} && Accepts(1, steps)
    case Approve(_, _, _, _, _, scopeDigest, caller) =>
      && (caller == Human || caller.GrantAllowed?) && a.status == AwaitingApproval
      && a.activePlanId.Some? && a.activePlanId.value in w.plans
      && w.plans[a.activePlanId.value].digest != "" && scopeDigest != ""
    case Reject(_, reason, caller) =>
      && caller == Human && a.status == AwaitingApproval
      && exists c :: c in reason && c != ' ' && c != '\t' && c != '\n' && c != '\r'
    case Start(_, caller) => (caller == Human || caller.GrantAllowed?) && a.status == Approved
    case MarkRunning(_) => a.status in {Queued, Paused}
    case Complete(_) => a.status == Running
    case Fail(_) => a.status == Running
    case Pause(_) => a.status == Running
    case Resume(_) => a.status in {Queued, Paused}
    case Cancel(_) => a.status in {Queued, Running, Paused}
    case ReadGate(_) => true
  }

  /** In every reachable world the calls that take effect are exactly these. Marking as
      running and resuming are the same move: each also takes the other's status. */
  lemma EffectExactly(d: Digests, w: World, call: Call)
    requires AllPinned(d, w) && Fresh(w, call) && call.id in w.assessments
    ensures Apply(d, w, call).Success? <==> TakesEffect(w, w.assessments[call.id], call)
  {
    hide Accepts, PlanFor, Blank, Stored, ApprovalFor, PlanRefusal, Pinned, AllPinned;
    PinnedParts(d, w, call.id);
    match call
    case Reject(_, reason, _) =>
      BlankIs(reason);
    case AttachPlan(_, _, steps) =>
      RefusedPlan(steps);
    case _ =>
  }

  lemma RefusedPlan(steps: seq<PlanStep>)
    ensures PlanRefusal(steps).Some? <==> !Accepts(1, steps)
  {
  }

  lemma PinnedParts(d: Digests, w: World, id: string)
    requires AllPinned(d, w) && id in w.assessments
    ensures
      var a := w.assessments[id];
      && (a.activePlanId.Some? ==> a.activePlanId.value in w.plans)
      && (a.status == Approved ==> a.activePlanId.Some? && a.approvalId.Some?)
  {
    assert Pinned(d, w, id);
  }

  lemma BlankIs(s: string)
    ensures Blank(s) <==> !exists c :: c in s && c != ' ' && c != '\t' && c != '\n' && c != '\r'
  {
    if i :| 0 <= i < |s| && s[i] !in {' ', '\t', '\n', '\r'} {
      assert s[i] in s;
    }
  }

  /** An approval or start by someone who is no human and has no grant that allows it,
      and a rejection by anyone but a human, are refused and change nothing. */
  lemma OnlyThePermittedDecide(d: Digests, w: World, call: Call)
    requires call.Approve? || call.Start? || call.Reject?
    requires call.caller != Human && (call.caller.GrantAllowed? ==> call.Reject?)
    ensures Apply(d, w, call) == Failure(PermissionDenied) && After(d, w, call) == w
  {
  }

  /** The n-th call approved (or started) the assessment, and was made by a human or
      under a grant that allowed it. */
  ghost predicate ApprovedAt(d: Digests, w: World, calls: seq<Call>, n: nat, id: string) {
    && n < |calls| && calls[n].Approve? && Took(d, Run(d, w, calls[..n]), calls[n], id)
    && (calls[n].caller == Human || calls[n].caller.GrantAllowed?)
  }

  ghost predicate StartedAt(d: Digests, w: World, calls: seq<Call>, n: nat, id: string) {
    && n < |calls| && calls[n].Start? && Took(d, Run(d, w, calls[..n]), calls[n], id)
    && (calls[n].caller == Human || calls[n].caller.GrantAllowed?)
  }

  /** The approval as the n-th call asked for it, in the name of its human or of its
      grant. */
  ghost predicate StoredAt(d: Digests, w: World, calls: seq<Call>, n: nat, q: Approval) {
    && n < |calls| && ApprovedAt(d, w, calls, n, q.assessmentId)
    && q.id == calls[n].approvalId && q.risks == calls[n].risks
    && q.capabilities == calls[n].capabilities && q.scopeDigest == calls[n].scopeDigest
    && q.approvedBy == (if calls[n].caller == Human then calls[n].approvedBy
                        else "grant:" + calls[n].caller.grantId)
    && Covers(d, Run(d, w, calls[..n]), q)
  }

  /** It is of the assessment's mode and plan, and carries its own digest. */
  ghost predicate Covers(d: Digests, w: World, q: Approval) {
    && q.assessmentId in w.assessments
    && var a := w.assessments[q.assessmentId];
       && q.mode == a.mode && a.activePlanId.Some? && a.activePlanId.value in w.plans
       && q.planDigest == w.plans[a.activePlanId.value].digest
       && q.digest == d.approval(q.assessmentId, q.planDigest, q.scopeDigest, q.mode, q.risks,
                                 q.capabilities, q.approvedBy)
  }

  lemma EarlierCall(d: Digests, w: World, calls: seq<Call>, n: nat, id: string)
    requires n + 1 < |calls|
    ensures ApprovedAt(d, w, calls, n, id) <==> ApprovedAt(d, w, calls[..|calls| - 1], n, id)
    ensures StartedAt(d, w, calls, n, id) <==> StartedAt(d, w, calls[..|calls| - 1], n, id)
  {
    hide Took, Run;
    assert calls[..|calls| - 1][..n] == calls[..n];
  }

  lemma CallStores(d: Digests, w: World, call: Call, q: string)
    requires AllPinned(d, w) && q in After(d, w, call).approvals
    ensures
      var p := After(d, w, call).approvals[q];
      || (q in w.approvals && p == w.approvals[q])
      || (&& call.Approve? && Took(d, w, call, p.assessmentId)
          && (call.caller == Human || call.caller.GrantAllowed?)
          && q == p.id == call.approvalId && p.risks == call.risks
          && p.capabilities == call.capabilities && p.scopeDigest == call.scopeDigest
          && p.approvedBy == (if call.caller == Human then call.approvedBy
                              else "grant:" + call.caller.grantId)
          && Covers(d, w, p))
  {
    hide Accepts, Blank, PlanFor, PlanRefusal, AllowedFrom;
    if call.id in w.assessments {
      assert Pinned(d, w, call.id);
    }
  }

  /** Every approval there is was stored by some call of a human or under a grant that
      allowed it, with that call's contents and in that one's name. */
  lemma {:induction false} ApprovalsWereGiven(d: Digests, w: World, calls: seq<Call>, q: string)
    requires AllPinned(d, w) && AllFresh(d, w, calls) && q in Run(d, w, calls).approvals
    ensures
      var p := Run(d, w, calls).approvals[q];
      (q in w.approvals && p == w.approvals[q]) || exists n: nat :: StoredAt(d, w, calls, n, p)
  {
    hide AllPinned, After, Fresh, Took, Covers;
    if calls != [] {
      var front, last := calls[..|calls| - 1], calls[|calls| - 1];
      var p := Run(d, w, calls).approvals[q];
      ApprovalPinsThePlan(d, w, front);
      CallStores(d, Run(d, w, front), last, q);
      if q in Run(d, w, front).approvals && p == Run(d, w, front).approvals[q] {
        ApprovalsWereGiven(d, w, front, q);
        if n: nat :| StoredAt(d, w, front, n, p) {
          EarlierCall(d, w, calls, n, p.assessmentId);
          assert front[..n] == calls[..n];
          assert StoredAt(d, w, calls, n, p);
        }
      } else {
        assert StoredAt(d, w, calls, |calls| - 1, p);
      }
    }
  }

  ghost predicate BegunWithin(d: Digests, w: World, calls: seq<Call>, id: string) {
    exists m: nat, n: nat :: m < n && ApprovedAt(d, w, calls, m, id) && StartedAt(d, w, calls, n, id)
  }

  lemma CallBegins(d: Digests, w: World, call: Call, id: string)
    requires AllPinned(d, w) && Fresh(w, call) && id in After(d, w, call).assessments
    ensures
      var s' := After(d, w, call).assessments[id].status;
      if id !in w.assessments then s' == Draft
      else
        var s := w.assessments[id].status;
        && (s' == Approved ==> s == Approved || (call.Approve? && Took(d, w, call, id)))
        && (s' in {Queued, Running, Paused, Completed, Partial, Failed, Cancelled} ==>
              || s in {Queued, Running, Paused, Completed, Partial, Failed, Cancelled}
              || (s == Approved && call.Start? && Took(d, w, call, id)))
        && ((call.Approve? || call.Start?) && Took(d, w, call, id) ==>
              call.caller == Human || call.caller.GrantAllowed?)
  {
    hide Apply, After, AllPinned, Fresh, TakesEffect;
    if id in w.assessments {
      RowIs(d, w, call, id);
      if call.id == id {
        EffectExactly(d, w, call);
        if Took(d, w, call, id) {
          EffectOn(w, w.assessments[id], call);
        }
      }
    } else {
      BornDraft(d, w, call, id);
    }
  }

  lemma EffectOn(w: World, a: Assessment, call: Call)
    requires TakesEffect(w, a, call)
    ensures RowAfter(a, call).status == Approved ==> call.Approve? || a.status == Approved
    ensures RowAfter(a, call).status in {Queued, Running, Paused, Completed, Partial, Failed, Cancelled} ==>
      || a.status in {Queued, Running, Paused, Completed, Partial, Failed, Cancelled}
      || (a.status == Approved && call.Start?)
    ensures call.Approve? || call.Start? ==> call.caller == Human || call.caller.GrantAllowed?
  {
    hide Accepts;
  }

  lemma BornDraft(d: Digests, w: World, call: Call, id: string)
    requires AllPinned(d, w) && Fresh(w, call) && id !in w.assessments && id in After(d, w, call).assessments
    ensures After(d, w, call).assessments[id].status == Draft
  {
    hide Accepts, Blank, PlanFor, PlanRefusal, AllowedFrom;
    CallTouchesItsOwn(d, w, call);
  }

  /** Nothing runs unasked: an assessment that is queued, running, paused or over was
      approved and then started by calls of humans or under grants that allowed them;
      an approved one was approved so. */
  lemma {:induction false} RunsWerePermitted(d: Digests, w: World, calls: seq<Call>, id: string)
    requires AllPinned(d, w) && AllFresh(d, w, calls) && id !in w.assessments
    requires id in Run(d, w, calls).assessments
    ensures
      var s := Run(d, w, calls).assessments[id].status;
      && (s == Approved ==> exists n: nat :: ApprovedAt(d, w, calls, n, id))
      && (s in {Queued, Running, Paused, Completed, Partial, Failed, Cancelled} ==>
            BegunWithin(d, w, calls, id))
  {
    hide AllPinned, After, Fresh, Took;
    var front, last := calls[..|calls| - 1], calls[|calls| - 1];
    var s := Run(d, w, calls).assessments[id].status;
    ApprovalPinsThePlan(d, w, front);
    CallBegins(d, Run(d, w, front), last, id);
    if id in Run(d, w, front).assessments {
      RunsWerePermitted(d, w, front, id);
      var before := Run(d, w, front).assessments[id].status;
      if before == Approved {
        var n: nat :| ApprovedAt(d, w, front, n, id);
        EarlierCall(d, w, calls, n, id);
        assert s in {Queued, Running, Paused, Completed, Partial, Failed, Cancelled} ==>
          StartedAt(d, w, calls, |front|, id);
      } else if before in {Queued, Running, Paused, Completed, Partial, Failed, Cancelled} {
        var m: nat, n: nat :| m < n && ApprovedAt(d, w, front, m, id) && StartedAt(d, w, front, n, id);
        EarlierCall(d, w, calls, m, id);
        EarlierCall(d, w, calls, n, id);
      }
      if s == Approved && before != Approved {
        assert ApprovedAt(d, w, calls, |front|, id);
      }
    }
  }

  // ------------------------------------------------------------- status traces

  /** Every status change is one the table allows. */
  lemma CallFollowsTable(d: Digests, w: World, call: Call, id: string)
    requires AllPinned(d, w) && Fresh(w, call) && id in w.assessments
    ensures id in After(d, w, call).assessments
    ensures
      var s, s' := w.assessments[id].status, After(d, w, call).assessments[id].status;
      s' == s || s' in AllowedFrom(s)
  {
    hide Apply, After, AllPinned, Fresh, AllowedFrom;
    RowIs(d, w, call, id);
  }

  /** The plan, the approval and both references of an assessment that has reached
      APPROVED are the same forever. */
  ghost predicate SamePlan(w: World, w': World, id: string)
    requires id in w.assessments
  {
    && id in w'.assessments
    && var a, a' := w.assessments[id], w'.assessments[id];
       && ApprovedOnce(a'.status)
       && a'.activePlanId == a.activePlanId && a'.approvalId == a.approvalId
       && (a.activePlanId.Some? && a.activePlanId.value in w.plans ==>
             a.activePlanId.value in w'.plans
             && w'.plans[a.activePlanId.value] == w.plans[a.activePlanId.value])
       && (a.approvalId.Some? && a.approvalId.value in w.approvals ==>
             a.approvalId.value in w'.approvals
             && w'.approvals[a.approvalId.value] == w.approvals[a.approvalId.value])
  }

  lemma OwnCallKeepsPlan(d: Digests, w: World, call: Call)
    requires AllPinned(d, w) && Fresh(w, call)
    requires call.id in w.assessments && ApprovedOnce(w.assessments[call.id].status)
    ensures
      var a, w' := w.assessments[call.id], After(d, w, call);
      && call.id in w'.assessments
      && w'.assessments[call.id].activePlanId == a.activePlanId
      && w'.assessments[call.id].approvalId == a.approvalId
      && ApprovedOnce(w'.assessments[call.id].status)
  {
    hide Apply, After, AllPinned, Fresh, Took;
    RowIs(d, w, call, call.id);
  }

  lemma CallKeepsPlan(d: Digests, w: World, call: Call, id: string)
    requires AllPinned(d, w) && Fresh(w, call)
    requires id in w.assessments && ApprovedOnce(w.assessments[id].status)
    ensures SamePlan(w, After(d, w, call), id)
  {
    hide AllPinned, After, Fresh;
    CallTouchesItsOwn(d, w, call);
    CallKeepsRecords(d, w, call);
    if id == call.id {
      OwnCallKeepsPlan(d, w, call);
    }
  }

  lemma SamePlanTrans(d: Digests, a: World, b: World, c: World, id: string)
    requires id in a.assessments && id in b.assessments && AllPinned(d, a)
    requires SamePlan(a, b, id) && SamePlan(b, c, id)
    ensures SamePlan(a, c, id)
  {
  }

  lemma {:induction false} PlanNeverChangesAfterApproval(d: Digests, w: World,
                                                         calls: seq<Call>, id: string)
    requires AllPinned(d, w) && AllFresh(d, w, calls)
    requires id in w.assessments && ApprovedOnce(w.assessments[id].status)
    ensures SamePlan(w, Run(d, w, calls), id)
  {
    if calls != [] {
      var front := calls[..|calls| - 1];
      PlanNeverChangesAfterApproval(d, w, front, id);
      OneMoreCall(d, w, calls, id);
    }
  }

  lemma OneMoreCall(d: Digests, w: World, calls: seq<Call>, id: string)
    requires calls != [] && AllPinned(d, w) && AllFresh(d, w, calls) && id in w.assessments
    requires SamePlan(w, Run(d, w, calls[..|calls| - 1]), id)
    ensures SamePlan(w, Run(d, w, calls), id)
  {
    hide AllPinned, After, Fresh;
    var before := Run(d, w, calls[..|calls| - 1]);
    ApprovalPinsThePlan(d, w, calls[..|calls| - 1]);
    CallKeepsPlan(d, before, calls[|calls| - 1], id);
    SamePlanTrans(d, w, before, Run(d, w, calls), id);
  }

  /** Terminal statuses, CANCELLED among them, survive everything: executor marks
      and control calls on them are refused and the gate only clears the signal. */
  lemma {:induction false} TerminalSurvives(d: Digests, w: World, calls: seq<Call>, id: string)
    requires AllPinned(d, w) && AllFresh(d, w, calls)
    requires id in w.assessments && AllowedFrom(w.assessments[id].status) == {}
    ensures id in Run(d, w, calls).assessments
    ensures Run(d, w, calls).assessments[id].status == w.assessments[id].status
  {
    hide AllPinned, After, Fresh, AllowedFrom;
    if calls != [] {
      var front := calls[..|calls| - 1];
      TerminalSurvives(d, w, front, id);
      ApprovalPinsThePlan(d, w, front);
      CallFollowsTable(d, Run(d, w, front), calls[|calls| - 1], id);
    }
  }

  // ---------------------------------------------------------------- control gate

  /** The control calls on `id` that took effect and ask the executor to stop. */
  ghost function StopsAsked(d: Digests, w: World, calls: seq<Call>, id: string): nat {
    if calls == [] then 0
    else
      var front, last := calls[..|calls| - 1], calls[|calls| - 1];
      StopsAsked(d, w, front, id)
        + if (last.Pause? || last.Cancel?) && last.id == id
             && Apply(d, Run(d, w, front), last).Success? then 1 else 0
  }

  /** The gate readings on `id` that stopped the executor. */
  ghost function StopsGiven(d: Digests, w: World, calls: seq<Call>, id: string): nat {
    if calls == [] then 0
    else
      var front, last := calls[..|calls| - 1], calls[|calls| - 1];
      StopsGiven(d, w, front, id)
        + if last.ReadGate? && last.id == id
             && GateAnswer(Run(d, w, front), id) != Rounds.Continue then 1 else 0
  }

  predicate StopPending(w: World, id: string) {
    id in w.assessments && GateAnswer(w, id) != Rounds.Continue
  }

  lemma CallMovesStop(d: Digests, w: World, call: Call, id: string)
    requires AllPinned(d, w) && Fresh(w, call) && id in w.assessments
    ensures StopPending(After(d, w, call), id) ==>
      || ((call.Pause? || call.Cancel?) && call.id == id && Apply(d, w, call).Success?)
      || (StopPending(w, id) && !(call.ReadGate? && call.id == id))
  {
    hide Apply, After, AllPinned, Fresh, AllowedFrom;
    RowIs(d, w, call, id);
  }

  /** No signal is applied twice: the executor is stopped at most as often as a
      pause or cancellation was asked for. */
  lemma {:induction false} StopsWereAskedFor(d: Digests, w: World, calls: seq<Call>, id: string)
    requires AllPinned(d, w) && AllFresh(d, w, calls)
    requires id in w.assessments && !StopPending(w, id)
    ensures id in Run(d, w, calls).assessments
    ensures StopsGiven(d, w, calls, id) + (if StopPending(Run(d, w, calls), id) then 1 else 0)
         <= StopsAsked(d, w, calls, id)
  {
    hide AllPinned, After, Apply, Fresh, GateAnswer;
    if calls != [] {
      var front := calls[..|calls| - 1];
      StopsWereAskedFor(d, w, front, id);
      ApprovalPinsThePlan(d, w, front);
      CallFollowsTable(d, Run(d, w, front), calls[|calls| - 1], id);
      CallMovesStop(d, Run(d, w, front), calls[|calls| - 1], id);
      PendingMeansStop(Run(d, w, front), id);
    }
  }

  lemma PendingMeansStop(w: World, id: string)
    requires id in w.assessments
    ensures StopPending(w, id) <==> GateAnswer(w, id) != Rounds.Continue
  {
  }

  lemma CancelSignalStays(d: Digests, w: World, call: Call, id: string)
    requires AllPinned(d, w) && Fresh(w, call) && id in w.assessments
    requires w.assessments[id].status == Cancelled && w.assessments[id].control == CancelRequested
    requires !(call.ReadGate? && call.id == id)
    ensures id in After(d, w, call).assessments
    ensures After(d, w, call).assessments[id] == w.assessments[id]
  {
    hide Apply, After, AllPinned, Fresh;
    RowIs(d, w, call, id);
  }

  /** A cancellation is never lost: whatever else is called in between, the first
      gate reading after it answers "cancelled". */
  lemma {:induction false} CancelIsDelivered(d: Digests, w: World, calls: seq<Call>, id: string)
    requires AllPinned(d, w) && AllFresh(d, w, calls) && id in w.assessments
    requires w.assessments[id].status == Cancelled && w.assessments[id].control == CancelRequested
    requires forall c | c in calls :: !(c.ReadGate? && c.id == id)
    ensures id in Run(d, w, calls).assessments
    ensures Run(d, w, calls).assessments[id] == w.assessments[id]
    ensures GateAnswer(Run(d, w, calls), id) == Rounds.Cancel
  {
    hide AllPinned, After, Fresh;
    if calls != [] {
      var front := calls[..|calls| - 1];
      assert calls[|calls| - 1] in calls;
      CancelIsDelivered(d, w, front, id);
      ApprovalPinsThePlan(d, w, front);
      CancelSignalStays(d, Run(d, w, front), calls[|calls| - 1], id);
    }
  }

  /** Of the control calls that took effect the last was a resume. */
  ghost predicate ResumedLast(d: Digests, w: World, calls: seq<Call>, id: string) {
    calls != [] &&
      var front, last := calls[..|calls| - 1], calls[|calls| - 1];
      if Took(d, Run(d, w, front), last, id) && (last.Pause? || last.Resume? || last.Cancel?)
      then last.Resume?
      else ResumedLast(d, w, front, id)
  }

  /** The last pause or cancellation that took effect was neither answered by a gate
      reading nor taken back by a resume. */
  ghost predicate StoppedLast(d: Digests, w: World, calls: seq<Call>, id: string) {
    calls != [] &&
      var front, last := calls[..|calls| - 1], calls[|calls| - 1];
      if Took(d, Run(d, w, front), last, id)
         && (last.Pause? || last.Resume? || last.Cancel? || last.ReadGate?)
      then last.Pause? || last.Cancel?
      else StoppedLast(d, w, front, id)
  }

  lemma CallMovesSignal(d: Digests, w: World, call: Call, id: string)
    requires AllPinned(d, w) && Fresh(w, call) && id in w.assessments
    requires !(call.ReadGate? && call.id == id)
    ensures id in After(d, w, call).assessments
    ensures After(d, w, call).assessments[id].control
         == if !Took(d, w, call, id) then w.assessments[id].control
            else if call.Pause? then PauseRequested
            else if call.Resume? then ResumeRequested
            else if call.Cancel? then CancelRequested
            else w.assessments[id].control
  {
    hide Apply, After, AllPinned, Fresh, AllowedFrom;
    RowIs(d, w, call, id);
  }

  /** When a pause reaches the executor: once a stop is pending, and whatever is
      called before the gate is next read, that reading stops the executor if and
      only if the last control call to take effect was not a resume. */
  lemma {:induction false} StopReachesGate(d: Digests, w: World, calls: seq<Call>, id: string)
    requires AllPinned(d, w) && AllFresh(d, w, calls) && StopPending(w, id)
    requires forall c | c in calls :: !(c.ReadGate? && c.id == id)
    ensures id in Run(d, w, calls).assessments
    ensures GateAnswer(Run(d, w, calls), id) != Rounds.Continue <==> !ResumedLast(d, w, calls, id)
  {
    hide AllPinned, After, Fresh, Took;
    if calls != [] {
      var front := calls[..|calls| - 1];
      assert calls[|calls| - 1] in calls;
      StopReachesGate(d, w, front, id);
      ApprovalPinsThePlan(d, w, front);
      CallMovesSignal(d, Run(d, w, front), calls[|calls| - 1], id);
    }
  }

  // ------------------------------------------------- a gate read in two steps

  /** A call that took effect and ended the run. */
  ghost predicate RunEnded(d: Digests, w: World, calls: seq<Call>, id: string) {
    calls != [] &&
      var front, last := calls[..|calls| - 1], calls[|calls| - 1];
      || RunEnded(d, w, front, id)
      || (Took(d, Run(d, w, front), last, id) && (last.Complete? || last.Fail? || last.Cancel?))
  }

  /** The moves between RUNNING and PAUSED that took effect. */
  ghost function Turns(d: Digests, w: World, calls: seq<Call>, id: string): nat {
    if calls == [] then 0
    else
      var front, last := calls[..|calls| - 1], calls[|calls| - 1];
      Turns(d, w, front, id)
        + if Took(d, Run(d, w, front), last, id) && (last.Pause? || last.Resume? || last.MarkRunning?)
          then 1 else 0
  }

  predicate Live(s: AssessmentStatus) {
    s == Running || s == Paused
  }

  predicate OverFor(s: AssessmentStatus) {
    s == Completed || s == Failed || s == Cancelled
  }

  lemma CallTurns(d: Digests, w: World, call: Call, id: string)
    requires AllPinned(d, w) && Fresh(w, call) && id in w.assessments
    ensures id in After(d, w, call).assessments
    ensures
      var s, s' := w.assessments[id].status, After(d, w, call).assessments[id].status;
      && (OverFor(s) ==> s' == s)
      && (Live(s) ==>
            if Took(d, w, call, id) && (call.Complete? || call.Fail? || call.Cancel?) then OverFor(s')
            else if Took(d, w, call, id) && (call.Pause? || call.Resume? || call.MarkRunning?)
            then Live(s') && s' != s
            else s' == s)
  {
    hide Apply, After, AllPinned, Fresh, Took;
    RowIs(d, w, call, id);
  }

  /** Where a live assessment is after any calls. */
  lemma {:induction false} StatusAfter(d: Digests, w: World, calls: seq<Call>, id: string)
    requires AllPinned(d, w) && AllFresh(d, w, calls)
    requires id in w.assessments && Live(w.assessments[id].status)
    ensures id in Run(d, w, calls).assessments
    ensures
      var s, s' := w.assessments[id].status, Run(d, w, calls).assessments[id].status;
      if RunEnded(d, w, calls, id) then OverFor(s')
      else Live(s') && (s' == s <==> Turns(d, w, calls, id) % 2 == 0)
  {
    hide AllPinned, After, Fresh, Took;
    if calls != [] {
      var front := calls[..|calls| - 1];
      StatusAfter(d, w, front, id);
      ApprovalPinsThePlan(d, w, front);
      CallTurns(d, Run(d, w, front), calls[|calls| - 1], id);
    }
  }

  lemma CallKeepsIdentity(d: Digests, w: World, call: Call, id: string)
    requires AllPinned(d, w) && Fresh(w, call) && id in w.assessments
    requires ApprovedOnce(w.assessments[id].status)
    ensures id in After(d, w, call).assessments
    ensures
      var a, a' := w.assessments[id], After(d, w, call).assessments[id];
      a' == a.(status := a'.status, control := a'.control) && ApprovedOnce(a'.status)
  {
    hide Apply, After, AllPinned, Fresh, Took;
    RowIs(d, w, call, id);
  }

  /** After approval only status and signal of an assessment ever change. */
  lemma {:induction false} OnlyStatusAndSignalChange(d: Digests, w: World, calls: seq<Call>, id: string)
    requires AllPinned(d, w) && AllFresh(d, w, calls) && id in w.assessments
    requires ApprovedOnce(w.assessments[id].status)
    ensures id in Run(d, w, calls).assessments
    ensures
      var a, a' := w.assessments[id], Run(d, w, calls).assessments[id];
      a' == a.(status := a'.status, control := a'.control) && ApprovedOnce(a'.status)
  {
    hide AllPinned, After, Fresh, ApprovedOnce;
    if calls != [] {
      var front := calls[..|calls| - 1];
      OnlyStatusAndSignalChange(d, w, front, id);
      ApprovalPinsThePlan(d, w, front);
      CallKeepsIdentity(d, Run(d, w, front), calls[|calls| - 1], id);
    }
  }

  /** What the gate writes back of the row it read: nothing if no signal was pending,
      else that row with the signal consumed. */
  function WrittenBack(w: World, read: Assessment): World {
    if read.control == NoSignal then w else Stored(w, read.(control := NoSignal))
  }

  /** The world after a gate that read before `calls` and wrote after them. */
  ghost function TwoStep(d: Digests, w: World, calls: seq<Call>, id: string): World
    requires id in w.assessments
  {
    WrittenBack(Run(d, w, calls), w.assessments[id])
  }

  /** The gate's writing undid nothing: the assessment stands as the calls left it in
      all but its signal, and a stop they asked for is still pending. */
  ghost predicate Harmless(d: Digests, w: World, calls: seq<Call>, id: string)
    requires id in w.assessments
  {
    var after, written := Run(d, w, calls), TwoStep(d, w, calls, id);
    && id in after.assessments && id in written.assessments
    && written.assessments[id]
       == after.assessments[id].(control := written.assessments[id].control)
    && (StoppedLast(d, w, calls, id) ==> GateAnswer(written, id) != Rounds.Continue)
  }

  lemma PinnedId(d: Digests, w: World, id: string)
    requires AllPinned(d, w) && id in w.assessments
    ensures w.assessments[id].id == id
  {
    assert Pinned(d, w, id);
  }

  /** Such a stop is pending. */
  lemma {:induction false} StoppedLastIsPending(d: Digests, w: World, calls: seq<Call>, id: string)
    requires AllPinned(d, w) && AllFresh(d, w, calls) && id in w.assessments
    ensures id in Run(d, w, calls).assessments
    ensures StoppedLast(d, w, calls, id) ==> GateAnswer(Run(d, w, calls), id) != Rounds.Continue
  {
    hide AllPinned, After, Fresh, Took;
    if calls != [] {
      var front, last := calls[..|calls| - 1], calls[|calls| - 1];
      StoppedLastIsPending(d, w, front, id);
      ApprovalPinsThePlan(d, w, front);
      RowIs(d, Run(d, w, front), last, id);
    }
  }

  /** A gate whose reading and writing are two steps, with any calls in between, does
      no harm if and only if it had no signal to consume, or the status is what it was
      when read and no stop asked for in between is still unanswered. For a live run
      the status is what it was if no call ended the run and the moves between RUNNING
      and PAUSED that took effect are even in number. */
  lemma TwoStepGateIsHarmless(d: Digests, w: World, calls: seq<Call>, id: string)
    requires AllPinned(d, w) && AllFresh(d, w, calls)
    requires id in w.assessments && ApprovedOnce(w.assessments[id].status)
    ensures id in Run(d, w, calls).assessments
    ensures
      var a, after := w.assessments[id], Run(d, w, calls).assessments[id];
      && (Harmless(d, w, calls, id) <==>
            || a.control == NoSignal
            || (after.status == a.status && !StoppedLast(d, w, calls, id)))
      && (Live(a.status) ==>
            (after.status == a.status
             <==> !RunEnded(d, w, calls, id) && Turns(d, w, calls, id) % 2 == 0))
  {
    hide AllPinned, Fresh, ApprovedOnce, Run, RunEnded, Turns, StoppedLast;
    OnlyStatusAndSignalChange(d, w, calls, id);
    StoppedLastIsPending(d, w, calls, id);
    PinnedId(d, w, id);
    if Live(w.assessments[id].status) {
      StatusAfter(d, w, calls, id);
    }
  }

  /** With nothing in between the two steps are one reading. */
  lemma TwoStepsWithoutCalls(d: Digests, w: World, id: string)
    requires AllPinned(d, w) && id in w.assessments
    ensures TwoStep(d, w, [], id) == After(d, w, ReadGate(id))
  {
    PinnedId(d, w, id);
    var a := w.assessments[id];
    assert a.control == NoSignal ==> w.assessments[id := a.(control := NoSignal)] == w.assessments;
  }

  // -------------------------------------------------------------------- service

  class AssessmentRepository {
    var assessments: map<string, Assessment>
    var plans: map<string, ExecutionPlan>
    var approvals: map<string, Approval>

    constructor ()
      ensures Contents() == World(map[], map[], map[])
    {
      assessments, plans, approvals := map[], map[], map[];
    }

    function Contents(): World
      reads this
    {
      World(assessments, plans, approvals)
    }

    method Add(a: Assessment)
      modifies this`assessments
      ensures assessments == old(assessments)[a.id := a]
    {
      assessments := assessments[a.id := a];
    }

    method SavePlan(p: ExecutionPlan)
      modifies this`plans
      ensures plans == old(plans)[p.id := p]
    {
      plans := plans[p.id := p];
    }

    method SaveApproval(q: Approval)
      modifies this`approvals
      ensures approvals == old(approvals)[q.id := q]
    {
      approvals := approvals[q.id := q];
    }
  }

  lemma RefusalIs(steps: seq<PlanStep>, r: Result<ExecutionPlan, PlanError>)
    requires r.Success? <==> Accepts(1, steps)
    requires r.Failure? ==>
      match r.error
      case BadVersion => false
      case DuplicateKeys => !UniqueKeys(steps)
      case UnknownDependency => UniqueKeys(steps) && !ClosedSteps(steps)
      case DependencyCycle => UniqueKeys(steps) && ClosedSteps(steps)
    ensures PlanRefusal(steps) == if r.Success? then None else Some(r.error)
  {
  }

  class AssessmentService {
    const repo: AssessmentRepository
    const digests: Digests

    constructor (repo: AssessmentRepository, digests: Digests)
      ensures this.repo == repo && this.digests == digests
    {
      this.repo, this.digests := repo, digests;
    }

    /** The call had exactly the effect and the failure that `Apply` gives it. */
    ghost predicate Did(before: World, call: Call, error: Option<ServiceError>)
      reads repo
    {
      match Apply(digests, before, call)
      case Success(w) => error == None && repo.Contents() == w
      case Failure(e) => error == Some(e) && repo.Contents() == before
    }

    method CreateAssessment(id: string, projectId: string, scopeSnapshotId: string, mode: ExecutionMode)
      returns (error: Option<ServiceError>)
      modifies repo
      ensures Did(old(repo.Contents()), Create(id, projectId, scopeSnapshotId, mode), error)
    {
      if id == "" || projectId == "" || scopeSnapshotId == "" {
        return Some(MissingIdentifier);
      }
      repo.Add(Assessment(id, projectId, scopeSnapshotId, mode, Draft, None, None, NoSignal));
      return None;
    }

    method AttachPlan(id: string, planId: string, steps: seq<PlanStep>)
      returns (error: Option<ServiceError>)
      modifies repo
      ensures Did(old(repo.Contents()), Call.AttachPlan(id, planId, steps), error)
    {
      hide Accepts, UniqueKeys, ClosedSteps, HasCycle, Stratified, GraphOf, PlanRefusal;
      if id !in repo.assessments {
        return Some(NotFound);
      }
      var a := repo.assessments[id];
      if AwaitingApproval !in AllowedFrom(a.status) {
        return Some(IllegalTransition);
      }
      var created := Plans.Create(planId, id, 1, steps, digests.plan);
      RefusalIs(steps, created);
      if created.Failure? {
        return Some(PlanRefused(created.error));
      }
      repo.SavePlan(created.value);
      repo.Add(a.(status := AwaitingApproval, activePlanId := Some(planId)));
      return None;
    }

    method Approve(id: string, approvalId: string, approvedBy: string, risks: set<RiskClass>,
                   capabilities: set<string>, scopeDigest: string, caller: Caller)
      returns (error: Option<ServiceError>)
      modifies repo
      ensures Did(old(repo.Contents()),
                  Call.Approve(id, approvalId, approvedBy, risks, capabilities, scopeDigest, caller),
                  error)
      ensures caller == NotHuman || caller == GrantDenied ==>
        error == Some(PermissionDenied) && repo.Contents() == old(repo.Contents())
    {
      if !Allows(caller) {
        return Some(PermissionDenied);
      }
      var approver := if caller.GrantAllowed? then "grant:" + caller.grantId else approvedBy;
      if id !in repo.assessments {
        return Some(NotFound);
      }
      var a := repo.assessments[id];
      if a.activePlanId.None? {
        return Some(NoPlan);
      }
      if AssessmentStatus.Approved !in AllowedFrom(a.status) {
        return Some(IllegalTransition);
      }
      if a.activePlanId.value !in repo.plans {
        return Some(PlanMissing);
      }
      var plan := repo.plans[a.activePlanId.value];
      if plan.digest == "" || scopeDigest == "" {
        return Some(MissingDigest);
      }
      var digest := digests.approval(a.id, plan.digest, scopeDigest, a.mode, risks, capabilities,
                                     approver);
      repo.SaveApproval(Approval(approvalId, a.id, plan.digest, scopeDigest, a.mode, risks,
                                 capabilities, approver, digest));
      repo.Add(a.(status := AssessmentStatus.Approved, approvalId := Some(approvalId)));
      return None;
    }

    method Reject(id: string, reason: string, caller: Caller) returns (error: Option<ServiceError>)
      modifies repo
      ensures Did(old(repo.Contents()), Call.Reject(id, reason, caller), error)
      ensures caller != Human ==>
        error == Some(PermissionDenied) && repo.Contents() == old(repo.Contents())
    {
      if caller != Human {
        return Some(PermissionDenied);
      }
      if id !in repo.assessments {
        return Some(NotFound);
      }
      var a := repo.assessments[id];
      if Rejected !in AllowedFrom(a.status) {
        return Some(IllegalTransition);
      }
      if Blank(reason) {
        return Some(NoReason);
      }
      repo.Add(a.(status := Rejected));
      return None;
    }

    method Start(id: string, caller: Caller) returns (error: Option<ServiceError>)
      modifies repo
      ensures Did(old(repo.Contents()), Call.Start(id, caller), error)
      ensures caller == NotHuman || caller == GrantDenied ==>
        error == Some(PermissionDenied) && repo.Contents() == old(repo.Contents())
    {
      if !Allows(caller) {
        return Some(PermissionDenied);
      }
      if id !in repo.assessments {
        return Some(NotFound);
      }
      var a := repo.assessments[id];
      if Queued !in AllowedFrom(a.status) {
        return Some(IllegalTransition);
      }
      if a.activePlanId.None? {
        return Some(NoPlan);
      }
      if a.approvalId.None? {
        return Some(NoApproval);
      }
      repo.Add(a.(status := Queued));
      return None;
    }

    /** A status change, with its control signal if it carries one. */
    method Move(id: string, to: AssessmentStatus, signal: Option<ControlState>)
      returns (error: Option<ServiceError>)
      modifies repo
      ensures id !in old(repo.assessments) ==>
        error == Some(NotFound) && repo.Contents() == old(repo.Contents())
      ensures id in old(repo.assessments) ==>
        var w, a := old(repo.Contents()), old(repo.assessments)[id];
        match Moved(w, a, to, if signal.Some? then signal.value else a.control)
        case Success(w') => error == None && repo.Contents() == w'
        case Failure(e) => error == Some(e) && repo.Contents() == w
    {
      if id !in repo.assessments {
        return Some(NotFound);
      }
      var a := repo.assessments[id];
      if to !in AllowedFrom(a.status) {
        return Some(IllegalTransition);
      }
      var control := if signal.Some? then signal.value else a.control;
      repo.Add(a.(status := to, control := control));
      return None;
    }

    method MarkRunning(id: string) returns (error: Option<ServiceError>)
      modifies repo
      ensures Did(old(repo.Contents()), Call.MarkRunning(id), error)
    {
      error := Move(id, Running, None);
    }

    method Complete(id: string) returns (error: Option<ServiceError>)
      modifies repo
      ensures Did(old(repo.Contents()), Call.Complete(id), error)
    {
      error := Move(id, Completed, None);
    }

    method Fail(id: string) returns (error: Option<ServiceError>)
      modifies repo
      ensures Did(old(repo.Contents()), Call.Fail(id), error)
    {
      error := Move(id, Failed, None);
    }

    method Pause(id: string) returns (error: Option<ServiceError>)
      modifies repo
      ensures Did(old(repo.Contents()), Call.Pause(id), error)
    {
      error := Move(id, Paused, Some(PauseRequested));
    }

    method Resume(id: string) returns (error: Option<ServiceError>)
      modifies repo
      ensures Did(old(repo.Contents()), Call.Resume(id), error)
    {
      error := Move(id, Running, Some(ResumeRequested));
    }

    method Cancel(id: string) returns (error: Option<ServiceError>)
      modifies repo
      ensures Did(old(repo.Contents()), Call.Cancel(id), error)
    {
      error := Move(id, Cancelled, Some(CancelRequested));
    }

    /** The executor's control gate: read the signal and consume it. */
    method ReadGate(id: string) returns (answer: Rounds.Decision)
      modifies repo
      ensures answer == GateAnswer(old(repo.Contents()), id)
      ensures id !in old(repo.assessments) ==> repo.Contents() == old(repo.Contents())
      ensures id in old(repo.assessments) ==>
        repo.Contents() == WrittenBack(old(repo.Contents()), old(repo.assessments)[id])
      ensures id in old(repo.assessments) && old(repo.assessments)[id].id == id ==>
        Did(old(repo.Contents()), Call.ReadGate(id), None)
    {
      if id !in repo.assessments {
        return Rounds.Cancel;
      }
      var current := repo.assessments[id];
      if current.control == NoSignal {
        assert repo.assessments[id := current] == repo.assessments;
        return Rounds.Continue;
      }
      repo.Add(current.(control := NoSignal));
      match current.control
      case PauseRequested => return Rounds.Pause;
      case CancelRequested => return Rounds.Cancel;
      case _ => return Rounds.Continue;
    }
  }
}
