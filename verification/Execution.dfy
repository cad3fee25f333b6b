/** Executions of a plan: the initial drain, drains resumed after a pause over the
    same store, and the abandonment of a cancelled run. */
module Execution {
  import opened Wrappers
  import opened Plans
  import opened Jobs
  import opened DrainSpec
  import opened Rounds
  import opened Orchestration

  /** What one executor thread brings along: its clock, workers, gate and the cap
      on drain rounds. */
  datatype Session = Session(owner: string, now: int, maxWorkers: nat,
                             gate: Option<nat -> Decision>, maxRounds: nat)

  ghost predicate Drained(g: Graph, t: Table)
    requires forall k | k in g :: JobId(k) in t.jobs
  {
    WithStatus(CoresOf(g, t), Ready) == {}
  }

  /** The store holds exactly the plan's jobs and every job is as the recursive
      definition of the plan's outcome says. */
  ghost predicate Evaluated(g: Graph, digest: string, run: Outcomes, t: Table) {
    && Stratified(g) && PlanTable(g, digest, t)
    && forall k | k in g :: CoreOf(t.jobs[JobId(k)]) == Eval(g, run, k)
  }

  /** The evaluation said of the jobs alone: each is as its own attempts and its
      dependencies demand. */
  lemma EvaluatedIsFinal(g: Graph, digest: string, run: Outcomes, t: Table)
    requires Stratified(g) && PlanTable(g, digest, t)
    ensures CoresOf(g, t).Keys == g.Keys
    ensures Evaluated(g, digest, run, t) <==> forall k | k in g :: IsFinal(g, run, CoresOf(g, t), k)
  {
    hide IsFinal, Eval, Stratified;
    var c := CoresOf(g, t);
    if Evaluated(g, digest, run, t) {
      forall k | k in g ensures IsFinal(g, run, c, k) {
        EvalIsFinal(g, run, c, k);
      }
    }
    if forall k | k in g :: IsFinal(g, run, c, k) {
      forall k | k in g ensures c[k] == Eval(g, run, k) {
        FinalIsEval(g, run, c, k);
      }
    }
  }

  /** A store that drains of this plan, and nothing else, have worked on. */
  ghost predicate InProgress(g: Graph, digest: string, run: Outcomes, t: Table,
                             calls: map<string, nat>) {
    && Stratified(g) && PlanTable(g, digest, t)
    && (forall k | k in g :: CallsIn(calls, k) == t.jobs[JobId(k)].attempt)
    && OnTrack(g, run, CoresOf(g, t)) && Resumable(g, CoresOf(g, t))
  }

  /** Nothing dispatched and nothing run yet. */
  ghost predicate Untouched(t: Table, calls: map<string, nat>) {
    t == Table([], map[]) && calls == map[]
  }

  lemma DrainedIsEvaluated(g: Graph, digest: string, run: Outcomes, t: Table,
                           calls: map<string, nat>)
    requires InProgress(g, digest, run, t, calls) && Drained(g, t)
    ensures Evaluated(g, digest, run, t)
  {
    hide Table.Valid, OnTrack, Eval;
    forall k | k in g ensures CoreOf(t.jobs[JobId(k)]) == Eval(g, run, k) {
      DrainedIsEval(g, run, CoresOf(g, t), k);
    }
  }

  lemma InitialCoresOf(g: Graph, t: Table, calls: map<string, nat>)
    requires forall k | k in g :: JobId(k) in t.jobs
    requires CoresOf(g, t) == InitialCores(g) && calls == map[]
    ensures forall k | k in g :: CallsIn(calls, k) == t.jobs[JobId(k)].attempt
    ensures CoresOf(g, t).Keys == g.Keys
  {
    forall k | k in g ensures t.jobs[JobId(k)].attempt == 0 {
      assert CoresOf(g, t)[k].attempt == 0;
    }
  }

  lemma StartsTracking(g: Graph, digest: string, run: Outcomes, t: Table,
                       calls: map<string, nat>, steps: map<string, PlanStep>)
    requires Stratified(g) && PlanTable(g, digest, t)
    requires forall k | k in g :: JobId(k) in t.jobs
    requires forall k | k in g :: CallsIn(calls, k) == t.jobs[JobId(k)].attempt
    requires forall k | k in g :: k in steps && steps[k].key == k
    requires CoresOf(g, t).Keys == g.Keys
    requires OnTrack(g, run, CoresOf(g, t)) && NothingToUnblock(g, CoresOf(g, t))
    ensures Tracking(g, digest, run, t, calls, steps)
  {
    hide PlanTable, OnTrack, Stratified, NothingToUnblock, CoresOf;
  }

  lemma FreshDispatchTracks(plan: ExecutionPlan, run: Outcomes, ttl: int, t: Table,
                            steps: map<string, PlanStep>)
    requires UniqueKeys(plan.steps) && Stratified(GraphOf(plan.steps))
    requires Table([], map[]).Valid()
    requires t == Jobs.Run(Table([], map[]), DispatchOps(plan.digest, plan.steps), ttl)
    requires steps == KnownSteps(map[], plan.steps)
    ensures Tracking(GraphOf(plan.steps), plan.digest, run, t, map[], steps)
    ensures forall k | k in GraphOf(plan.steps) :: JobId(k) in t.jobs
    ensures AtRound(GraphOf(plan.steps), run, CoresOf(GraphOf(plan.steps), t), 0)
  {
    hide *;
    var g := GraphOf(plan.steps);
    DispatchFresh(plan.digest, plan.steps, ttl);
    PlanTableJobs(g, plan.digest, t);
    DispatchIsRoundZero(g, run);
    AtRoundIsOnTrack(g, run, InitialCores(g), 0);
    KnowsItsSteps(map[], plan.steps);
    InitialCoresOf(g, t, map[]);
    StartsTracking(g, plan.digest, run, t, map[], steps);
  }

  lemma AgainDispatchTracks(plan: ExecutionPlan, run: Outcomes, ttl: int, t: Table,
                            calls: map<string, nat>, steps: map<string, PlanStep>)
    requires InProgress(GraphOf(plan.steps), plan.digest, run, t, calls)
    requires steps == KnownSteps(map[], plan.steps)
    ensures Jobs.Run(t, DispatchOps(plan.digest, plan.steps), ttl) == t
    ensures Tracking(GraphOf(plan.steps), plan.digest, run, t, calls, steps)
  {
    hide PlanTable, OnTrack, Stratified, KnownSteps, Jobs.Run, Resumable;
    var g := GraphOf(plan.steps);
    forall s | s in plan.steps ensures s.key in g {
      var i :| 0 <= i < |plan.steps| && plan.steps[i] == s;
      assert KeysOf(plan.steps)[i] == s.key;
    }
    DispatchAgain(g, plan.digest, t, plan.steps, ttl);
    KnowsItsSteps(map[], plan.steps);
    PlanTableJobs(g, plan.digest, t);
  }

  lemma TrackingInProgress(g: Graph, digest: string, run: Outcomes, t: Table,
                           calls: map<string, nat>, steps: map<string, PlanStep>)
    requires Tracking(g, digest, run, t, calls, steps)
    ensures InProgress(g, digest, run, t, calls)
  {
  }

  /** One executor thread: a new orchestrator over the given store dispatches the
      plan and drains, under any gate. A drain that ends unstopped before its cap, or
      whose cap was enough, leaves the plan's recursive evaluation. On a fresh store
      the outcome of an unstopped drain is exact whatever the cap: each job is what
      maxRounds rounds make of it. What an earlier drain decided stays as it was and
      is not run again. */
  method RunSession(plan: ExecutionPlan, store: MemoryJobStore, runner: StepRunner, s: Session)
    returns (status: RunStatus, ghost rounds: nat)
    requires UniqueKeys(plan.steps) && Stratified(GraphOf(plan.steps))
    requires store.Valid() && s.maxWorkers >= 1
    requires Untouched(store.View(), runner.calls)
          || InProgress(GraphOf(plan.steps), plan.digest, runner.outcomes, store.View(), runner.calls)
    modifies store, runner
    ensures store.Valid() && rounds <= s.maxRounds
    ensures InProgress(GraphOf(plan.steps), plan.digest, runner.outcomes, store.View(), runner.calls)
    ensures status != RunCompleted ==>
      s.gate.Some? && !Drained(GraphOf(plan.steps), store.View())
    ensures exists n: nat :: Heard(s.gate, 0, n, HeardOf(status))
    ensures (status == RunCompleted
             && (rounds < s.maxRounds || EnoughFor(plan, runner.outcomes, s.maxRounds))) ==>
      Drained(GraphOf(plan.steps), store.View())
      && Evaluated(GraphOf(plan.steps), plan.digest, runner.outcomes, store.View())
    ensures status == RunCompleted && old(Untouched(store.View(), runner.calls)) ==>
      AtRound(GraphOf(plan.steps), runner.outcomes,
              CoresOf(GraphOf(plan.steps), store.View()), s.maxRounds)
    ensures old(Untouched(store.View(), runner.calls)) && rounds > 0 ==>
      !DoneBy(GraphOf(plan.steps), runner.outcomes, rounds - 1)
    ensures rounds > 0 ==> NotYetDone(GraphOf(plan.steps), runner.outcomes, rounds - 1)
    ensures old(InProgress(GraphOf(plan.steps), plan.digest, runner.outcomes, store.View(),
                           runner.calls)) ==>
      NothingRedone(GraphOf(plan.steps),
                    old(CoresOf(GraphOf(plan.steps), store.View())), old(runner.calls),
                    CoresOf(GraphOf(plan.steps), store.View()), runner.calls)
  {
    hide *;
    ghost var g, t, calls := GraphOf(plan.steps), store.View(), runner.calls;
    ghost var untouched := Untouched(t, calls);
    ghost var begun := InProgress(g, plan.digest, runner.outcomes, t, calls);
    if begun {
      InProgressJobs(g, plan.digest, runner.outcomes, t, calls);
    }
    var o := new Orchestrator(store, runner, s.maxWorkers, s.gate);
    o.DispatchBegins(plan);
    var created := o.Dispatch(plan);
    Dispatched(plan, runner.outcomes, store.ttl, t, calls, store.View(), o.steps);
    o.BeginsDraining(g, plan.digest);
    o.DrainingParts(g, plan.digest, s.now);
    ghost var c := o.Cores(g);
    status, rounds := o.RunToCompletion(s.owner, s.now, s.maxRounds, g, plan.digest);
    o.DrainingParts(g, plan.digest, s.now);
    TrackingInProgress(g, plan.digest, runner.outcomes, store.View(), runner.calls, o.steps);
    InProgressJobs(g, plan.digest, runner.outcomes, store.View(), runner.calls);
    NotDrained(g, store.View());
    if status == RunCompleted && EnoughFor(plan, runner.outcomes, s.maxRounds) {
      EnoughDrains(plan, runner.outcomes, o.Cores(g), s.maxRounds);
    }
    if Drained(g, store.View()) {
      DrainedIsEvaluated(g, plan.digest, runner.outcomes, store.View(), runner.calls);
    }
    if begun && untouched {
      NothingToRedo(g, t, calls, CoresOf(g, store.View()), runner.calls);
    }
    if untouched {
      if status == RunCompleted {
        AdvancedAt(g, runner.outcomes, c, o.Cores(g), s.maxRounds, 0);
      }
      if rounds > 0 {
        NotDoneAt(g, runner.outcomes, c, rounds - 1);
      }
    }
  }

  /** No job is stored, so the plan has no step. */
  lemma NothingToRedo(g: Graph, t: Table, calls: map<string, nat>, c: Cores, calls': map<string, nat>)
    requires Untouched(t, calls) && forall k | k in g :: JobId(k) in t.jobs
    ensures NothingRedone(g, CoresOf(g, t), calls, c, calls')
  {
  }

  /** The cap leaves a round more than would decide the plan from dispatch. */
  ghost predicate EnoughFor(plan: ExecutionPlan, run: Outcomes, maxRounds: nat)
    requires Stratified(GraphOf(plan.steps))
  {
    maxRounds > 0 && DoneBy(GraphOf(plan.steps), run, maxRounds - 1)
  }

  lemma EnoughDrains(plan: ExecutionPlan, run: Outcomes, c: Cores, maxRounds: nat)
    requires Stratified(GraphOf(plan.steps)) && CaughtUp(GraphOf(plan.steps), run, c, maxRounds)
    requires EnoughFor(plan, run, maxRounds)
    ensures WithStatus(c, Ready) == {}
  {
    hide Ahead, OnTrack, DoneBy, WithStatus, Stratified;
    AheadOfDone(GraphOf(plan.steps), run, c, maxRounds - 1, maxRounds - 1);
  }

  lemma NotDoneAt(g: Graph, run: Outcomes, c: Cores, r: nat)
    requires Stratified(g) && NotDoneBy(g, run, c, r) && AtRound(g, run, c, 0)
    ensures !DoneBy(g, run, r)
  {
    assert 0 + r == r;
  }

  lemma NotDrained(g: Graph, t: Table)
    requires forall k | k in g :: JobId(k) in t.jobs
    ensures Drained(g, t) <==> WithStatus(CoresOf(g, t), Ready) == {}
  {
  }

  lemma Dispatched(plan: ExecutionPlan, run: Outcomes, ttl: int, t: Table, calls: map<string, nat>,
                   t': Table, steps: map<string, PlanStep>)
    requires UniqueKeys(plan.steps) && Stratified(GraphOf(plan.steps)) && t.Valid()
    requires Untouched(t, calls) || InProgress(GraphOf(plan.steps), plan.digest, run, t, calls)
    requires t' == Jobs.Run(t, DispatchOps(plan.digest, plan.steps), ttl)
    requires steps == KnownSteps(map[], plan.steps)
    ensures Tracking(GraphOf(plan.steps), plan.digest, run, t', calls, steps)
    ensures Untouched(t, calls) ==>
      AtRound(GraphOf(plan.steps), run, CoresOf(GraphOf(plan.steps), t'), 0)
    ensures !Untouched(t, calls) ==> t' == t
  {
    hide Table.Valid, InProgress, Tracking, AtRound, Stratified, Jobs.Run, KnownSteps;
    if Untouched(t, calls) {
      FreshDispatchTracks(plan, run, ttl, t', steps);
      TrackingParts(GraphOf(plan.steps), plan.digest, run, t', calls, steps);
    } else {
      AgainDispatchTracks(plan, run, ttl, t, calls, steps);
    }
  }

  /** Any number of sessions under any gates, each resuming the last over the same
      store. If the last one leaves nothing ready, or ends unstopped with a cap that
      is enough, the job table is the plan's recursive evaluation, as if nothing had
      ever been paused. Nothing decided before is changed or run again. */
  method RunSessions(plan: ExecutionPlan, store: MemoryJobStore, runner: StepRunner,
                     sessions: seq<Session>)
    returns (statuses: seq<RunStatus>)
    requires UniqueKeys(plan.steps) && Stratified(GraphOf(plan.steps)) && store.Valid()
    requires Untouched(store.View(), runner.calls)
          || InProgress(GraphOf(plan.steps), plan.digest, runner.outcomes, store.View(), runner.calls)
    requires sessions != [] && forall s | s in sessions :: s.maxWorkers >= 1
    modifies store, runner
    ensures |statuses| == |sessions| && store.Valid()
    ensures InProgress(GraphOf(plan.steps), plan.digest, runner.outcomes, store.View(), runner.calls)
    ensures Drained(GraphOf(plan.steps), store.View()) ==>
      Evaluated(GraphOf(plan.steps), plan.digest, runner.outcomes, store.View())
    ensures statuses[|statuses| - 1] != RunCompleted ==>
      !Drained(GraphOf(plan.steps), store.View())
    ensures (statuses[|statuses| - 1] == RunCompleted
             && EnoughFor(plan, runner.outcomes, sessions[|sessions| - 1].maxRounds)) ==>
      Evaluated(GraphOf(plan.steps), plan.digest, runner.outcomes, store.View())
    ensures old(InProgress(GraphOf(plan.steps), plan.digest, runner.outcomes, store.View(),
                           runner.calls)) ==>
      NothingRedone(GraphOf(plan.steps),
                    old(CoresOf(GraphOf(plan.steps), store.View())), old(runner.calls),
                    CoresOf(GraphOf(plan.steps), store.View()), runner.calls)
  {
    hide *;
    statuses := [];
    ghost var g, t, calls := GraphOf(plan.steps), store.View(), runner.calls;
    ghost var begun := InProgress(g, plan.digest, runner.outcomes, t, calls);
    if begun {
      InProgressJobs(g, plan.digest, runner.outcomes, t, calls);
      NothingRedoneYet(g, CoresOf(g, t), calls);
    }
    var i := 0;
    while i < |sessions|
      invariant 0 <= i <= |sessions| && |statuses| == i && store.Valid()
      invariant i == 0 ==> store.View() == t && runner.calls == calls
      invariant i > 0 || begun ==>
        && InProgress(g, plan.digest, runner.outcomes, store.View(), runner.calls)
        && forall k | k in g :: JobId(k) in store.View().jobs
      invariant begun ==>
        NothingRedone(g, CoresOf(g, t), calls, CoresOf(g, store.View()), runner.calls)
      invariant i > 0 && statuses[i - 1] != RunCompleted ==> !Drained(g, store.View())
      invariant (i > 0 && statuses[i - 1] == RunCompleted
                 && EnoughFor(plan, runner.outcomes, sessions[i - 1].maxRounds)) ==>
        Evaluated(g, plan.digest, runner.outcomes, store.View())
    {
      ghost var before, made := store.View(), runner.calls;
      var status, rounds := RunSession(plan, store, runner, sessions[i]);
      InProgressJobs(g, plan.digest, runner.outcomes, store.View(), runner.calls);
      if begun {
        NothingRedoneOn(g, CoresOf(g, t), calls, CoresOf(g, before), made,
                        CoresOf(g, store.View()), runner.calls);
      }
      statuses := statuses + [status];
      i := i + 1;
    }
    if Drained(g, store.View()) {
      DrainedIsEvaluated(g, plan.digest, runner.outcomes, store.View(), runner.calls);
    }
  }

  lemma InProgressJobs(g: Graph, digest: string, run: Outcomes, t: Table, calls: map<string, nat>)
    requires InProgress(g, digest, run, t, calls)
    ensures forall k | k in g :: JobId(k) in t.jobs
  {
  }

  // -------------------------------------------------------------- cancellation

  predicate Abandoned(s: JobStatus) {
    s == Ready || s == Blocked || s == Pending || s == Leased
  }

  /** The table with the unfinished jobs among `ids` skipped. */
  ghost function CancelledTable(t: Table, ids: set<string>): Table {
    Table(t.ids, map id | id in t.jobs ::
                   if id in ids && Abandoned(t.jobs[id].status) then SkippedJob(t.jobs[id])
                   else t.jobs[id])
  }

  lemma CancelPut(t: Table, j: Job, ids: set<string>)
    requires j.id in t.jobs && t.jobs[j.id] == j && j.id !in ids
    ensures
      var v := CancelledTable(t, ids);
      && j.id in v.jobs && v.jobs[j.id] == j
      && CancelledTable(t, ids + {j.id})
         == if Abandoned(j.status) then v.Put(j.id, SkippedJob(j)) else v
  {
  }

  lemma CancelNext(t: Table, js: seq<Job>, i: nat)
    requires AllOf(t, js) && i < |js|
    ensures
      var j, v := js[i], CancelledTable(t, IdsOf(js[..i]));
      && j.id in v.jobs && v.jobs[j.id] == j
      && CancelledTable(t, IdsOf(js[..i + 1]))
         == if Abandoned(j.status) then v.Put(j.id, SkippedJob(j)) else v
  {
    hide CancelledTable, AllOf;
    OneMore(js, i);
    AllApart(t, js);
    IdAndStepMembers(js[..i]);
    assert js[i] in js;
    CancelPut(t, js[i], IdsOf(js[..i]));
  }

  lemma CancelEnds(t: Table, js: seq<Job>)
    requires AllOf(t, js)
    ensures CancelledTable(t, IdsOf(js[..0])) == t
    ensures CancelledTable(t, IdsOf(js[..|js|])) == CancelledTable(t, t.jobs.Keys)
  {
    hide Abandoned, SkippedJob, IdsOf, AllOf;
    AllIds(t, js);
    NoIds(js);
  }

  /** Abandon a cancelled run: every unfinished job becomes SKIPPED, finished jobs
      keep their results. */
  method HandleCancelled(store: MemoryJobStore)
    requires store.Valid()
    modifies store
    ensures store.Valid()
    ensures store.View() == CancelledTable(old(store.View()), old(store.View()).jobs.Keys)
  {
    ghost var t := store.View();
    var js := store.All();
    CancelEnds(t, js);
    var i := 0;
    while i < |js|
      invariant 0 <= i <= |js| && store.Valid() && AllOf(t, js)
      invariant store.View() == CancelledTable(t, IdsOf(js[..i]))
    {
      hide *;
      CancelNext(t, js, i);
      if IsAbandoned(js[i]) {
        SkipOne(store, js[i]);
      }
      i := i + 1;
    }
  }

  predicate IsAbandoned(j: Job) {
    Abandoned(j.status)
  }

  method SkipOne(store: MemoryJobStore, j: Job)
    requires store.Valid() && j.id in store.View().jobs && store.View().jobs[j.id] == j
    modifies store
    ensures store.Valid() && store.View() == old(store.View()).Put(j.id, SkippedJob(j))
  {
    var r := store.SkipJob(j.id);
  }

  lemma NoneLeaseable(t: Table, now: int)
    requires t.Valid() && forall id | id in t.jobs :: !CanLease(t.jobs[id], now)
    ensures LeaseableJobs(t, now) == []
  {
    hide Table.Valid, LeaseableJobs, CanLease;
    LeaseableListsEachOnce(t, now);
    NonEmptyHasMember(LeaseableJobs(t, now));
  }

  lemma NonEmptyHasMember(js: seq<Job>)
    ensures js != [] ==> exists j :: j in js
  {
    if js != [] {
      assert js[0] in js;
    }
  }

  lemma CancelledJobs(t: Table)
    requires t.Valid()
    ensures CancelledTable(t, t.jobs.Keys).Valid()
    ensures forall id | id in t.jobs ::
      var j := CancelledTable(t, t.jobs.Keys).jobs[id];
      j.status != Ready && j.status != Leased && j.status != Blocked
  {
  }

  /** What a cancellation makes of each job. */
  lemma CancelledExactly(t: Table, id: string)
    requires id in t.jobs
    ensures
      var j, j' := t.jobs[id], CancelledTable(t, t.jobs.Keys).jobs[id];
      j' == if j.status in {Pending, Blocked, Ready, Leased}
            then j.(status := Skipped, leaseOwner := None, leaseExpiresAt := None) else j
  {
  }

  lemma NothingToResolve(t: Table)
    requires forall id | id in t.jobs :: t.jobs[id].status != Blocked
    ensures Resolved(t) == t
  {
    hide SucceededSteps;
    assert Resolved(t).jobs == t.jobs;
  }

  /** After a cancellation nothing can be leased at any time and no dependency
      resolution can revive a job, so a later resume finds no work. */
  lemma CancelledStaysDown(t: Table, now: int)
    requires t.Valid()
    ensures
      var t' := CancelledTable(t, t.jobs.Keys);
      && t'.Valid() && LeaseableJobs(t', now) == [] && Resolved(t') == t'
      && forall id | id in t.jobs && t.jobs[id].status == Succeeded :: t'.jobs[id] == t.jobs[id]
  {
    hide Table.Valid, LeaseableJobs, Resolved;
    CancelledJobs(t);
    NoneLeaseable(CancelledTable(t, t.jobs.Keys), now);
    NothingToResolve(CancelledTable(t, t.jobs.Keys));
  }

  // ---------------------------------------------------------------- round cap

  function ChainKey(i: nat): string {
    seq(i + 1, _ => 'k')
  }

  function ChainStep(i: nat): PlanStep {
    PlanStep(ChainKey(i), "nmap", Passive, map[], if i == 0 then [] else [ChainKey(i - 1)])
  }

  /** n steps, each depending on the one before. */
  function ChainSteps(n: nat): (ss: seq<PlanStep>)
    ensures |ss| == n
  {
    seq(n, i requires 0 <= i < n => ChainStep(i))
  }

  const ALWAYS_SUCCEEDS: Outcomes := (k: string, n: nat) => Produced("digest")

  lemma ChainKeysDiffer(i: nat, j: nat)
    requires i != j
    ensures ChainKey(i) != ChainKey(j)
  {
    assert |ChainKey(i)| == i + 1 && |ChainKey(j)| == j + 1;
  }

  lemma ChainKeysAreUnique(n: nat)
    ensures UniqueKeys(ChainSteps(n))
  {
    hide ChainKey;
    forall i: nat, j: nat | i < j < n ensures ChainKey(i) != ChainKey(j) {
      ChainKeysDiffer(i, j);
    }
  }

  lemma ChainGraph(n: nat, i: nat)
    requires i < n
    ensures ChainKey(i) in GraphOf(ChainSteps(n))
    ensures GraphOf(ChainSteps(n))[ChainKey(i)] == if i == 0 then [] else [ChainKey(i - 1)]
  {
    hide ChainKey, GraphOf, UniqueKeys;
    ChainKeysAreUnique(n);
    GraphOfStep(ChainSteps(n), i);
  }

  lemma ChainMember(n: nat, k: string) returns (i: nat)
    requires k in GraphOf(ChainSteps(n))
    ensures i < n && k == ChainKey(i)
  {
    hide ChainKey, GraphOf;
    i :| 0 <= i < n && KeysOf(ChainSteps(n))[i] == k;
  }

  lemma ChainIsAccepted(n: nat)
    ensures UniqueKeys(ChainSteps(n)) && Stratified(GraphOf(ChainSteps(n)))
  {
    hide GraphOf, UniqueKeys, ChainSteps;
    ChainKeysAreUnique(n);
    var g := GraphOf(ChainSteps(n));
    var rank: map<string, nat> := map k | k in g :: |k|;
    forall k, d | k in g && d in g[k] ensures d in rank && rank[d] < rank[k] {
      var i := ChainMember(n, k);
      ChainGraph(n, i);
      if i > 0 {
        ChainGraph(n, i - 1);
      }
    }
    assert Ranked(g, rank);
  }

  lemma AlwaysDecides(k: string)
    ensures Decide(ALWAYS_SUCCEEDS, k, 1) == Core(Succeeded, 1, "digest", None)
  {
  }

  lemma {:induction false} ChainFinish(n: nat, i: nat)
    requires i < n && Stratified(GraphOf(ChainSteps(n)))
    ensures ChainKey(i) in GraphOf(ChainSteps(n))
    ensures
      var g := GraphOf(ChainSteps(n));
      && Runs(g, ALWAYS_SUCCEEDS, ChainKey(i))
      && Eval(g, ALWAYS_SUCCEEDS, ChainKey(i)) == Core(Succeeded, 1, "digest", None)
      && Finish(g, ALWAYS_SUCCEEDS, ChainKey(i)) == i + 1
  {
    hide GraphOf, ChainKey, ChainSteps, Stratified, Decide;
    var g, k := GraphOf(ChainSteps(n)), ChainKey(i);
    ChainGraph(n, i);
    AlwaysDecides(k);
    if i > 0 {
      ChainFinish(n, i - 1);
      assert Latest(g, ALWAYS_SUCCEEDS, k, 0) == 0;
      assert Latest(g, ALWAYS_SUCCEEDS, k, 1) == i;
    }
  }

  /** "completed" does not mean drained. Take a plan of n chained steps whose
      every run succeeds; it is an acceptable plan. After r < n rounds, hence after
      an unstopped drain capped there, some step is still ready. */
  lemma CapLeavesWork(n: nat, r: nat)
    requires r < n
    ensures UniqueKeys(ChainSteps(n)) && Stratified(GraphOf(ChainSteps(n)))
    ensures
      var g := GraphOf(ChainSteps(n));
      forall c | AtRound(g, ALWAYS_SUCCEEDS, c, r) ::
        && WithStatus(c, Ready) != {}
        && exists k | k in c :: k in g && c[k] != Eval(g, ALWAYS_SUCCEEDS, k)
  {
    hide AtRound, Eval, Finish, Latest, WithStatus, Decide, GraphOf, UniqueKeys;
    ChainIsAccepted(n);
    var g := GraphOf(ChainSteps(n));
    ChainFinish(n, n - 1);
    assert !DoneBy(g, ALWAYS_SUCCEEDS, r);
    forall c | AtRound(g, ALWAYS_SUCCEEDS, c, r)
      ensures WithStatus(c, Ready) != {}
      ensures exists k | k in c :: k in g && c[k] != Eval(g, ALWAYS_SUCCEEDS, k)
    {
      DrainedExactly(g, ALWAYS_SUCCEEDS, c, r);
      AtRoundKeys(g, ALWAYS_SUCCEEDS, c, r);
    }
  }

  lemma AtRoundKeys(g: Graph, run: Outcomes, c: Cores, n: nat)
    requires Stratified(g) && AtRound(g, run, c, n)
    ensures c.Keys == g.Keys
  {
  }

  /** The cap never truncates a plan whose chains are short enough. */
  lemma CapIsEnough(g: Graph, run: Outcomes, depth: nat, r: nat)
    requires Stratified(g) && forall k | k in g :: Depth(g, k) <= depth
    requires MAX_ATTEMPTS * depth <= r
    ensures DoneBy(g, run, r)
  {
    forall k | k in g && Runs(g, run, k) ensures Finish(g, run, k) <= r {
      FinishBound(g, run, k);
    }
  }

  /** A drain of a fresh plan whose chains have at most `depth` steps runs at most
      three non-empty rounds per step of a chain, stopped or not. */
  lemma RoundsBounded(g: Graph, run: Outcomes, depth: nat, rounds: nat)
    requires Stratified(g) && forall k | k in g :: Depth(g, k) <= depth
    requires rounds > 0 ==> !DoneBy(g, run, rounds - 1)
    ensures rounds <= MAX_ATTEMPTS * depth
  {
    hide Depth, DoneBy;
    if rounds > MAX_ATTEMPTS * depth {
      CapIsEnough(g, run, depth, rounds - 1);
    }
  }

  /** A drain resumed from any point runs at most one more. */
  lemma ResumedRoundsBounded(g: Graph, run: Outcomes, depth: nat, rounds: nat)
    requires Stratified(g) && forall k | k in g :: Depth(g, k) <= depth
    requires rounds > 0 ==> NotYetDone(g, run, rounds - 1)
    ensures rounds <= MAX_ATTEMPTS * depth + 1
  {
    hide Depth, DoneBy;
    if rounds > 0 {
      CapIsEnough(g, run, depth, MAX_ATTEMPTS * depth);
    }
  }

  /** "completed" means drained, whatever the steps of the plan come to, exactly
      when the cap is three rounds per step of the longest chain. */
  lemma CompletedMeansDrained(g: Graph, maxRounds: nat)
    requires Stratified(g)
    ensures (forall run, c | AtRound(g, run, c, maxRounds) :: WithStatus(c, Ready) == {})
       <==> forall k | k in g :: MAX_ATTEMPTS * Depth(g, k) <= maxRounds
  {
    hide AtRound, WithStatus, Depth, DoneBy, Stratified;
    EnoughRounds(g, maxRounds);
    if forall run :: DoneBy(g, run, maxRounds) {
      forall run, c | AtRound(g, run, c, maxRounds) ensures WithStatus(c, Ready) == {} {
        DrainedExactly(g, run, c, maxRounds);
      }
    }
    if forall run, c | AtRound(g, run, c, maxRounds) :: WithStatus(c, Ready) == {} {
      forall run ensures DoneBy(g, run, maxRounds) {
        var c := TableOfRound(g, run, maxRounds);
        DrainedExactly(g, run, c, maxRounds);
      }
    }
  }

  lemma TableOfRound(g: Graph, run: Outcomes, n: nat) returns (c: Cores)
    requires Stratified(g)
    ensures AtRound(g, run, c, n)
  {
    hide CoreAt;
    c := map k | k in g :: CoreAt(g, run, k, n);
  }
}
