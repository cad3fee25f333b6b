/** Plan execution over the job store: dispatch, one round on the caller's thread
    or on a worker pool, dependency resolution, and the bounded drain loop.

    A step runner is a fixed but arbitrary function of (step key, how often the
    step has been run). The step gate's n-th answer is `gate(n)`, arbitrary too. */
module Orchestration {
  import opened Wrappers
  import opened Plans
  import opened Jobs
  import opened DrainSpec
  import opened Rounds

  datatype RoundResult = Executed(jobs: seq<Job>) | RoundPaused | RoundCancelled

  function StopResult(d: Decision): RoundResult {
    if d == Pause then RoundPaused else RoundCancelled
  }

  datatype RunStatus = RunCompleted | RunPaused | RunCancelled

  /** The answers of the gate that the results stand for. */
  function HeardIn(r: RoundResult): Decision {
    match r
    case Executed(_) => Continue
    case RoundPaused => Pause
    case RoundCancelled => Cancel
  }

  function HeardOf(s: RunStatus): Decision {
    match s
    case RunCompleted => Continue
    case RunPaused => Pause
    case RunCancelled => Cancel
  }

  lemma ExecutedHears(results: seq<Job>)
    ensures HeardIn(Executed(results)) == Continue
  {
  }

  lemma HearsExactly(r: RoundResult)
    ensures r.RoundPaused? ==> HeardIn(r) == HeardOf(RunPaused)
    ensures r.RoundCancelled? ==> HeardIn(r) == HeardOf(RunCancelled)
    ensures r.Executed? ==> HeardIn(r) == HeardOf(RunCompleted) == Continue
  {
  }

  lemma StopsAsHeard(d: Decision)
    requires d != Continue
    ensures HeardIn(StopResult(d)) == d
  {
  }

  // --------------------------------------------------------------- step runner

  class StepRunner {
    const outcomes: Outcomes
    var calls: map<string, nat>

    constructor (outcomes: Outcomes)
      ensures this.outcomes == outcomes && calls == map[]
    {
      this.outcomes := outcomes;
      calls := map[];
    }

    method RunStep(step: PlanStep) returns (o: StepOutcome)
      modifies this
      ensures o == outcomes(step.key, CallsIn(old(calls), step.key) + 1)
      ensures calls == Bumped(old(calls), {step.key})
    {
      var n := if step.key in calls then calls[step.key] else 0;
      calls := calls[step.key := n + 1];
      return outcomes(step.key, n + 1);
    }
  }

  // -------------------------------------------------------------- orchestrator

  class Orchestrator {
    const store: MemoryJobStore
    const runner: StepRunner
    const maxWorkers: nat
    const gate: Option<nat -> Decision>
    var steps: map<string, PlanStep>
    var consulted: nat

    constructor (store: MemoryJobStore, runner: StepRunner, maxWorkers: nat,
                 gate: Option<nat -> Decision>)
      requires maxWorkers >= 1
      ensures this.store == store && this.runner == runner && this.gate == gate
      ensures this.maxWorkers == maxWorkers && steps == map[] && consulted == 0
    {
      this.store, this.runner, this.maxWorkers, this.gate := store, runner, maxWorkers, gate;
      steps, consulted := map[], 0;
    }

    method Consult() returns (d: Decision)
      modifies this`consulted
      ensures d == Answer(gate, old(consulted)) && consulted == old(consulted) + 1
    {
      d := if gate.None? then Continue else gate.value(consulted);
      consulted := consulted + 1;
    }

    /** Lease, run, record. A refused lease is the raised JobLeaseError. */
    method Execute(job: Job, step: PlanStep, owner: string, now: int)
      returns (r: Result<Job, JobError>)
      requires store.Valid() && job.id in store.jobs
      modifies store, runner
      ensures store.Valid()
      ensures !CanLease(old(store.jobs[job.id]), now) ==>
        r == Failure(LeaseRefused) && store.View() == old(store.View()) && unchanged(runner)
      ensures CanLease(old(store.jobs[job.id]), now) ==>
        && r == Success(Recorded(runner.outcomes(step.key, CallsIn(old(runner.calls), step.key) + 1),
                                 LeasedJob(old(store.jobs[job.id]), owner, now, store.ttl)))
        && store.View() == old(store.View()).Put(job.id, r.value)
        && runner.calls == Bumped(old(runner.calls), {step.key})
        && DrivenBy(old(store.View()), job.id,
                    runner.outcomes(step.key, CallsIn(old(runner.calls), step.key) + 1), owner, now)
        && Settles(runner.outcomes(step.key, CallsIn(old(runner.calls), step.key) + 1),
                   old(store.jobs[job.id]), r.value)
    {
      hide DrivenBy, Recorded, CallsIn, Bumped, Settles;
      ghost var before, calls := store.View(), runner.calls;
      r := store.TakeLease(job.id, owner, now);
      if r.Failure? {
        return;
      }
      assert r.value == LeasedJob(before.jobs[job.id], owner, now, store.ttl);
      RecordedId(runner.outcomes(step.key, CallsIn(calls, step.key) + 1), r.value);
      r := RunAndRecord(r.value, step);
      PutTwice(before, job.id, LeasedJob(before.jobs[job.id], owner, now, store.ttl), r.value);
      Drove(before, job.id, runner.outcomes(step.key, CallsIn(calls, step.key) + 1), owner, now);
      RecordedSettles(runner.outcomes(step.key, CallsIn(calls, step.key) + 1), before.jobs[job.id],
                      owner, now, store.ttl);
    }

    lemma RecordedId(o: StepOutcome, leased: Job)
      ensures Recorded(o, leased).id == leased.id
    {
    }

    lemma Drove(t: Table, id: string, o: StepOutcome, owner: string, now: int)
      requires t.Valid() && id in t.jobs && CanLease(t.jobs[id], now)
      requires store.View() == t.Put(id, Recorded(o, LeasedJob(t.jobs[id], owner, now, store.ttl)))
      ensures DrivenBy(t, id, o, owner, now)
    {
      hide Driven, Recorded, CanLease, OutcomeOp;
      ExecutionIsDriven(t, id, o, owner, now, store.ttl, {});
    }

    /** The store now is what the calls of one execution, which respect the attempt
        limit, made of it. */
    ghost predicate DrivenBy(t: Table, id: string, o: StepOutcome, owner: string, now: int)
      reads store
    {
      && t.Valid() && id in t.jobs
      && var j := t.jobs[id];
         var ops := [Lease(id, owner, now), OutcomeOp(o, LeasedJob(j, owner, now, store.ttl))];
         && Driven(t, ops, store.ttl, id, j.maxAttempts, {})
         && store.View() == Jobs.Run(t, ops, store.ttl)
    }

    /** The part of a job's execution outside the lease: run the step, then
        complete, deny, retry or fail. */
    method RunAndRecord(leased: Job, step: PlanStep) returns (r: Result<Job, JobError>)
      requires store.Valid() && leased.id in store.jobs && store.jobs[leased.id] == leased
      modifies store, runner
      ensures store.Valid()
      ensures r == Success(Recorded(runner.outcomes(step.key, CallsIn(old(runner.calls), step.key) + 1),
                                    leased))
      ensures store.View() == old(store.View()).Put(leased.id, r.value)
      ensures runner.calls == Bumped(old(runner.calls), {step.key})
    {
      var outcome := runner.RunStep(step);
      match outcome
      case Produced(digest) =>
        r := store.CompleteJob(leased.id, digest);
      case StepFailure(f) =>
        if PolicyFailure(f) {
          r := store.FailJob(leased.id, f);
        } else if Retryable(f) && leased.attempt < leased.maxAttempts {
          r := store.RequeueJob(leased.id);
        } else {
          r := store.FailJob(leased.id, f);
        }
    }

    function EnvOf(owner: string, now: int): Env {
      Env(runner.outcomes, owner, now, store.ttl)
    }

    /** From table `t` and call counts `calls`, exactly the targets `ts` were run. */
    ghost predicate HasRun(e: Env, t: Table, calls: map<string, nat>, ts: seq<Job>)
      reads store, runner
    {
      && store.Valid() && store.View() == RanTable(e, t, IdsOf(ts))
      && runner.calls == Bumped(calls, StepsOf(ts))
    }

    lemma StartsUnrun(e: Env, ts: seq<Job>)
      requires store.Valid()
      ensures HasRun(e, store.View(), runner.calls, ts[..0])
      ensures store.View().Valid() && AreResults(e, ts[..0], [])
    {
      NothingRanYet(e, store.View(), runner.calls, ts);
    }

    method RunTarget(ts: seq<Job>, i: nat, owner: string, now: int,
                     ghost t: Table, ghost calls: map<string, nat>)
      returns (r: Job)
      requires i < |ts| && t.Valid() && Runnable(t, calls, steps, ts, now)
      requires HasRun(EnvOf(owner, now), t, calls, ts[..i])
      modifies store, runner
      ensures HasRun(EnvOf(owner, now), t, calls, ts[..i + 1])
      ensures r == Ran(EnvOf(owner, now), ts[i])
    {
      hide Table.Valid, Runnable, RanTable, Bumped, StepsOf, IdsOf;
      NextTarget(EnvOf(owner, now), t, calls, steps, ts, now, i);
      var done := Execute(ts[i], steps[ts[i].stepKey], owner, now);
      r := done.value;
    }

    /** The round's targets are run one after another on the caller's thread. */
    method RunSerial(ts: seq<Job>, owner: string, now: int)
      returns (results: seq<Job>, ran: nat, stopped: Decision)
      requires store.Valid() && Runnable(store.View(), runner.calls, steps, ts, now)
      modifies store, runner, this`consulted
      ensures ran == FirstStop(gate, old(consulted), |ts|)
      ensures HasRun(EnvOf(owner, now), old(store.View()), old(runner.calls), ts[..ran])
      ensures AreResults(EnvOf(owner, now), ts[..ran], results)
      ensures stopped == if ran < |ts| then Answer(gate, old(consulted) + ran) else Continue
      ensures Heard(gate, old(consulted), consulted, stopped)
    {
      hide *;
      results, ran, stopped := [], 0, Continue;
      ghost var t, calls := store.View(), runner.calls;
      StartsUnrun(EnvOf(owner, now), ts);
      while ran < |ts|
        invariant 0 <= ran <= |ts| && stopped == Continue
        invariant AreResults(EnvOf(owner, now), ts[..ran], results)
        invariant HasRun(EnvOf(owner, now), t, calls, ts[..ran])
        invariant forall k | old(consulted) <= k < old(consulted) + ran :: Answer(gate, k) == Continue
        invariant consulted == old(consulted) + ran && (ran == |ts| ==> stopped == Continue)
      {
        stopped := Consult();
        if stopped != Continue {
          break;
        }
        var r := RunTarget(ts, ran, owner, now, t, calls);
        AreResultsMore(EnvOf(owner, now), ts, ran, results);
        results := results + [r];
        ran := ran + 1;
      }
      FirstStopIs(gate, old(consulted), |ts|, ran);
      HeardUpTo(gate, old(consulted), ran, stopped);
    }

    ghost predicate InPool(e: Env, t: Table, calls: map<string, nat>, ts: seq<Job>,
                           done: set<nat>, running: set<nat>)
      reads store, runner
    {
      && store.Valid() && store.View() == PoolTable(e, t, ts, done, running)
      && runner.calls == Bumped(calls, StepsAt(ts, done))
    }

    lemma PoolOpens(e: Env, ts: seq<Job>)
      requires store.Valid()
      ensures InPool(e, store.View(), runner.calls, ts, {}, {}) && store.View().Valid()
    {
      PoolBegins(e, store.View(), runner.calls, ts);
    }

    lemma PoolCloses(e: Env, t: Table, calls: map<string, nat>, ts: seq<Job>, n: nat, done: set<nat>)
      requires n <= |ts| && (forall i: nat :: i in done <==> i < n) && InPool(e, t, calls, ts, done, {})
      ensures HasRun(e, t, calls, ts[..n])
    {
      PoolDone(e, t, ts, n, done);
    }

    method StartTask(ts: seq<Job>, i: nat, owner: string, now: int, ghost t: Table,
                     ghost calls: map<string, nat>, ghost done: set<nat>, ghost running: set<nat>)
      returns (leased: Job)
      requires i < |ts| && Runnable(t, calls, steps, ts, now) && i !in done && i !in running
      requires InPool(EnvOf(owner, now), t, calls, ts, done, running)
      modifies store
      ensures InPool(EnvOf(owner, now), t, calls, ts, done, running + {i})
      ensures leased == LeasedIn(EnvOf(owner, now), ts[i])
    {
      hide Table.Valid, Runnable, PoolTable, Bumped, StepsAt;
      PoolStart(EnvOf(owner, now), t, calls, steps, ts, done, running, i);
      var r := store.TakeLease(ts[i].id, owner, now);
      leased := r.value;
    }

    method FinishTask(ts: seq<Job>, i: nat, leased: Job, owner: string, now: int, ghost t: Table,
                      ghost calls: map<string, nat>, ghost done: set<nat>, ghost running: set<nat>)
      returns (finished: Job)
      requires i < |ts| && Runnable(t, calls, steps, ts, now) && i !in done && i in running
      requires leased == LeasedIn(EnvOf(owner, now), ts[i])
      requires InPool(EnvOf(owner, now), t, calls, ts, done, running)
      modifies store, runner
      ensures InPool(EnvOf(owner, now), t, calls, ts, done + {i}, running - {i})
      ensures finished == Ran(EnvOf(owner, now), ts[i])
    {
      hide Table.Valid, Runnable, PoolTable, Bumped, StepsAt;
      PoolFinish(EnvOf(owner, now), t, calls, steps, ts, done, running, i);
      var r := RunAndRecord(leased, steps[ts[i].stepKey]);
      finished := r.value;
    }

    /** The pool's tasks are in flight: `ran` targets submitted, the store and the
        runner as the finished and the running ones make them. */
    ghost predicate InFlight(e: Env, t: Table, calls: map<string, nat>, ts: seq<Job>, ran: nat,
                             pool: Pool)
      reads store, runner
    {
      && e == EnvOf(e.owner, e.now) && t.Valid()
      && InPool(e, t, calls, ts, pool.finished.Keys, pool.leases.Keys)
      && pool.Right(e, ts, maxWorkers, ran)
    }

    method StartSome(ts: seq<Job>, ghost ran: nat, pool: Pool, ghost e: Env, ghost t: Table,
                     ghost calls: map<string, nat>, owner: string, now: int)
      returns (next: Pool)
      requires e == EnvOf(owner, now) && Runnable(t, calls, steps, ts, now)
      requires InFlight(e, t, calls, ts, ran, pool)
      requires pool.waiting != {} && |pool.leases| < maxWorkers
      modifies store
      ensures InFlight(e, t, calls, ts, ran, next) && |next.waiting| < |pool.waiting|
    {
      hide Pool.Right, InPool, Runnable, Table.Valid;
      var i :| i in pool.waiting;
      pool.StartedRight(e, ts, maxWorkers, ran, i);
      var leased := StartTask(ts, i, owner, now, t, calls, pool.finished.Keys, pool.leases.Keys);
      next := pool.Started(i, leased);
    }

    method FinishSome(ts: seq<Job>, ghost ran: nat, pool: Pool, ghost e: Env, ghost t: Table,
                      ghost calls: map<string, nat>, owner: string, now: int)
      returns (next: Pool)
      requires e == EnvOf(owner, now) && Runnable(t, calls, steps, ts, now)
      requires InFlight(e, t, calls, ts, ran, pool) && pool.leases != map[]
      modifies store, runner
      ensures InFlight(e, t, calls, ts, ran, next)
      ensures next.waiting == pool.waiting && |next.leases| < |pool.leases|
    {
      hide Pool.Right, InPool, Runnable, Table.Valid;
      var i :| i in pool.leases.Keys;
      pool.EndedRight(e, ts, maxWorkers, ran, i);
      var job := FinishTask(ts, i, pool.leases[i], owner, now, t, calls,
                            pool.finished.Keys, pool.leases.Keys);
      next := pool.Ended(i, job);
    }

    lemma TakesOff(e: Env, ts: seq<Job>)
      requires exists owner, now :: e == EnvOf(owner, now)
      requires store.Valid()
      ensures InFlight(e, store.View(), runner.calls, ts, 0, Pool({}, map[], map[]))
    {
      hide InPool, Pool.Right, Table.Valid;
      PoolOpens(e, ts);
      EmptyPoolRight(e, ts, maxWorkers);
    }

    lemma Submits(e: Env, t: Table, calls: map<string, nat>, ts: seq<Job>, ran: nat, pool: Pool)
      requires InFlight(e, t, calls, ts, ran, pool) && ran < |ts|
      ensures InFlight(e, t, calls, ts, ran + 1, pool.Submitted(ran))
    {
      pool.SubmittedRight(e, ts, maxWorkers, ran);
    }

    lemma Lands(e: Env, t: Table, calls: map<string, nat>, ts: seq<Job>, ran: nat, pool: Pool)
      requires InFlight(e, t, calls, ts, ran, pool) && pool.waiting == {} && pool.leases == map[]
      ensures ran <= |ts| && HasRun(e, t, calls, ts[..ran])
      ensures forall i | 0 <= i < ran :: i in pool.finished && pool.finished[i] == Ran(e, ts[i])
    {
      pool.ClosedRight(e, ts, maxWorkers, ran);
      PoolCloses(e, t, calls, ts, ran, pool.finished.Keys);
    }

    /** The round's targets are submitted to a pool, the gate being consulted
        before each submission. At most `maxWorkers` tasks run at a time; which
        waiting task starts next, which running task finishes next and how both
        interleave with submission is left open. Leaving the pool waits for every
        submitted task. */
    method RunPool(ts: seq<Job>, owner: string, now: int)
      returns (results: seq<Job>, ran: nat, stopped: Decision)
      requires store.Valid() && Runnable(store.View(), runner.calls, steps, ts, now)
      requires maxWorkers >= 1
      modifies store, runner, this`consulted
      ensures ran == FirstStop(gate, old(consulted), |ts|)
      ensures HasRun(EnvOf(owner, now), old(store.View()), old(runner.calls), ts[..ran])
      ensures ran == |ts| ==> AreResults(EnvOf(owner, now), ts, results)
      ensures stopped == if ran < |ts| then Answer(gate, old(consulted) + ran) else Continue
      ensures Heard(gate, old(consulted), consulted, stopped)
    {
      hide *;
      ghost var e := EnvOf(owner, now);
      results, ran, stopped := [], 0, Continue;
      ghost var t, calls := store.View(), runner.calls;
      var pool := Pool({}, map[], map[]);
      TakesOff(e, ts);
      while
        invariant ran <= |ts| && (stopped != Continue ==> ran < |ts|)
        invariant InFlight(e, t, calls, ts, ran, pool)
        invariant forall k | old(consulted) <= k < old(consulted) + ran :: Answer(gate, k) == Continue
        invariant stopped == Continue ==> consulted == old(consulted) + ran
        invariant stopped != Continue ==>
          stopped == Answer(gate, old(consulted) + ran) && consulted == old(consulted) + ran + 1
        decreases stopped == Continue, |ts| - ran, |pool.waiting|, |pool.leases|
      {
        case ran < |ts| && stopped == Continue =>
          stopped := Consult();
          if stopped == Continue {
            Submits(e, t, calls, ts, ran, pool);
            pool, ran := pool.Submitted(ran), ran + 1;
          }
        case pool.waiting != {} && |pool.leases| < maxWorkers =>
          pool := StartSome(ts, ran, pool, e, t, calls, owner, now);
        case pool.leases != map[] =>
          pool := FinishSome(ts, ran, pool, e, t, calls, owner, now);
      }
      FirstStopIs(gate, old(consulted), |ts|, ran);
      HeardUpTo(gate, old(consulted), ran, stopped);
      Lands(e, t, calls, ts, ran, pool);
      if stopped == Continue {
        assert ts[..ran] == ts;
        results := seq(|ts|, i requires 0 <= i < |ts| => pool.finished[i]);
        AreResultsAll(e, ts, results);
      }
    }

    /** Mark BLOCKED jobs READY once all their dependency steps succeeded. */
    method ResolveDependencies()
      requires store.Valid()
      modifies store
      ensures store.Valid() && store.View() == Resolved(old(store.View()))
    {
      hide *;
      ghost var t := store.View();
      var js := store.All();
      ListsAll(js);
      var succeeded := set j | j in js && j.status == Succeeded :: j.stepKey;
      SucceededAmongAll(t, js);
      ResolveEnds(t, js, succeeded);
      var i := 0;
      while i < |js|
        invariant 0 <= i <= |js| && store.Valid() && AllOf(t, js)
        invariant store.View() == ResolvedIn(t, IdsOf(js[..i]), succeeded)
      {
        ResolveNext(t, js, succeeded, i);
        if js[i].status == Blocked && SetOf(js[i].dependencies) <= succeeded {
          MarkJobReady(js[i]);
        }
        i := i + 1;
      }
      ResolvedAll(t);
    }

    lemma ListsAll(js: seq<Job>)
      requires store.Valid() && |js| == |store.ids|
      requires forall i | 0 <= i < |js| :: js[i] == store.jobs[store.ids[i]]
      ensures AllOf(store.View(), js)
    {
    }

    lemma ResolvedAll(t: Table)
      ensures ResolvedIn(t, t.jobs.Keys, SucceededSteps(t)) == Resolved(t)
    {
    }

    method MarkJobReady(j: Job)
      requires store.Valid() && j.id in store.View().jobs && store.View().jobs[j.id] == j
      modifies store
      ensures store.Valid() && store.View() == old(store.View()).Put(j.id, j.(status := Ready))
    {
      var r := store.SetReady(j.id);
    }

    /** One round. However many workers there are and however their tasks
        interleave, the table, the call counts and the ordered results are those
        of running the targets one after another. A stop of the gate after n
        targets leaves the other targets as they were and skips resolution. */
    method ExecuteReady(owner: string, now: int) returns (r: RoundResult)
      requires store.Valid() && maxWorkers >= 1
      requires Runnable(store.View(), runner.calls, steps, Targets(store.View(), steps, now), now)
      modifies store, runner, this`consulted
      ensures
        var e, t := EnvOf(owner, now), old(store.View());
        var ts := Targets(t, steps, now);
        var n := FirstStop(gate, old(consulted), |ts|);
        var t' := RanTable(e, t, IdsOf(ts[..n]));
        && runner.calls == Bumped(old(runner.calls), StepsOf(ts[..n]))
        && (n < |ts| ==> store.View() == t' && r == StopResult(Answer(gate, old(consulted) + n)))
        && (n == |ts| ==> store.View() == Resolved(t') && r.Executed? && AreResults(e, ts, r.jobs))
      ensures Heard(gate, old(consulted), consulted, HeardIn(r))
    {
      hide *;
      ghost var t, calls := store.View(), runner.calls;
      var js := store.Leaseable(now);
      var ts := SelectTargets(js);
      SelectedTargets(now, js, ts);
      var results: seq<Job>, ran: nat, stopped: Decision;
      if maxWorkers <= 1 || |ts| <= 1 {
        results, ran, stopped := RunSerial(ts, owner, now);
        assert ran == |ts| ==> ts[..ran] == ts;
      } else {
        results, ran, stopped := RunPool(ts, owner, now);
      }
      AfterRun(EnvOf(owner, now), t, calls, ts[..ran]);
      if stopped != Continue {
        r := StopResult(stopped);
        StopsAsHeard(stopped);
      } else {
        assert ts[..ran] == ts;
        ResolveDependencies();
        r := Executed(results);
        assert HeardIn(r) == Continue by {
          ExecutedHears(results);
        }
      }
    }

    lemma SelectedTargets(now: int, js: seq<Job>, ts: seq<Job>)
      requires store.Valid() && js == LeaseableJobs(store.View(), now) && ts == WithStep(js, steps)
      ensures ts == Targets(store.View(), steps, now)
    {
    }

    lemma AfterRun(e: Env, t: Table, calls: map<string, nat>, ts: seq<Job>)
      requires HasRun(e, t, calls, ts)
      ensures store.Valid() && store.View() == RanTable(e, t, IdsOf(ts))
      ensures runner.calls == Bumped(calls, StepsOf(ts))
    {
    }

    method SelectTargets(js: seq<Job>) returns (ts: seq<Job>)
      ensures ts == WithStep(js, steps)
    {
      ts := [];
      var i := 0;
      while i < |js|
        invariant 0 <= i <= |js| && ts == WithStep(js[..i], steps)
      {
        assert js[..i + 1][..i] == js[..i];
        if js[i].stepKey in steps {
          ts := ts + [js[i]];
        }
        i := i + 1;
      }
      assert js[..|js|] == js;
    }

    /** This store, runner and orchestrator are where a drain of the plan may
        begin or go on. */
    ghost predicate Draining(g: Graph, digest: string)
      reads this, store, runner
    {
      && maxWorkers >= 1
      && Tracking(g, digest, runner.outcomes, store.View(), runner.calls, steps)
    }

    ghost function Cores(g: Graph): DrainSpec.Cores
      reads store
      requires forall k | k in g :: JobId(k) in store.jobs
    {
      CoresOf(g, store.View())
    }

    lemma BeginsDraining(g: Graph, digest: string)
      requires maxWorkers >= 1
      requires Tracking(g, digest, runner.outcomes, store.View(), runner.calls, steps)
      ensures Draining(g, digest)
    {
    }

    lemma DrainingParts(g: Graph, digest: string, now: int)
      requires Draining(g, digest)
      ensures maxWorkers >= 1 && Stratified(g) && store.Valid()
      ensures Tracking(g, digest, runner.outcomes, store.View(), runner.calls, steps)
      ensures forall k | k in g :: JobId(k) in store.jobs
      ensures store.View().Valid() && Cores(g) == CoresOf(g, store.View())
      ensures Cores(g).Keys == g.Keys && OnTrack(g, runner.outcomes, Cores(g))
      ensures Resumable(g, Cores(g))
      ensures Runnable(store.View(), runner.calls, steps, Targets(store.View(), steps, now), now)
    {
      hide OnTrack, Stratified, Runnable, PlanTable, Table.Valid, Resumable;
      var t := store.View();
      TrackingParts(g, digest, runner.outcomes, t, runner.calls, steps);
      NothingLeased(g, digest, runner.outcomes, t, runner.calls, steps);
      TargetsAreReady(g, digest, t, runner.calls, steps, now);
    }

    /** One round of a drain, seen on the cores. */
    method DrainRound(owner: string, now: int, ghost g: Graph, ghost digest: string)
      returns (r: RoundResult)
      requires Draining(g, digest)
      modifies store, runner, this`consulted
      ensures Draining(g, digest)
      ensures !r.Executed? ==> WithStatus(Cores(g), Ready) != {}
      ensures gate.None? ==> r.Executed?
      ensures Heard(gate, old(consulted), consulted, HeardIn(r))
      ensures r.Executed? ==> Cores(g) == Round(g, runner.outcomes, old(Cores(g)))
      ensures r == Executed([]) ==> WithStatus(Cores(g), Ready) == {}
      ensures r.Executed? ==> (r.jobs == [] <==> old(WithStatus(Cores(g), Ready)) == {})
      ensures NothingRedone(g, old(Cores(g)), old(runner.calls), Cores(g), runner.calls)
    {
      hide *;
      ghost var e, t, calls := EnvOf(owner, now), store.View(), runner.calls;
      DrainingParts(g, digest, now);
      r := ExecuteReady(owner, now);
      ghost var ts := Targets(t, steps, now);
      ghost var n := FirstStop(gate, old(consulted), |ts|);
      assert n == |ts| ==> ts[..n] == ts;
      EnvIs(owner, now);
      RoundDrains(g, digest, e, t, calls, ts, n, r);
    }

    lemma EnvIs(owner: string, now: int)
      ensures EnvOf(owner, now).run == runner.outcomes && EnvOf(owner, now).now == now
      ensures forall k :: gate.None? ==> Answer(gate, k) == Continue
      ensures forall d :: !StopResult(d).Executed?
    {
    }

    /** The table after a round, stopped or full, is one a drain may go on from. */
    lemma RoundDrains(g: Graph, digest: string, e: Env, t: Table, calls: map<string, nat>,
                      ts: seq<Job>, n: nat, r: RoundResult)
      requires maxWorkers >= 1 && e.run == runner.outcomes
      requires Tracking(g, digest, e.run, t, calls, steps) && ts == Targets(t, steps, e.now)
      requires n <= |ts| && runner.calls == Bumped(calls, StepsOf(ts[..n]))
      requires n < |ts| ==>
        store.View() == RanTable(e, t, IdsOf(ts[..n])) && !r.Executed?
      requires n == |ts| ==>
        store.View() == Resolved(RanTable(e, t, IdsOf(ts[..n])))
        && r.Executed? && AreResults(e, ts, r.jobs)
      ensures Draining(g, digest)
      ensures !r.Executed? ==> WithStatus(Cores(g), Ready) != {}
      ensures r.Executed? ==> Cores(g) == Round(g, e.run, CoresOf(g, t))
      ensures r == Executed([]) ==> WithStatus(Cores(g), Ready) == {}
      ensures r.Executed? ==> (r.jobs == [] <==> WithStatus(CoresOf(g, t), Ready) == {})
      ensures NothingRedone(g, CoresOf(g, t), calls, Cores(g), runner.calls)
    {
      hide OnTrack, Stratified, PlanTable, Table.Valid, RanTable, Resolved, Bumped, Targets, Round,
           CoresOf, Serving, NothingToUnblock, WithStatus, Ran, KeepsDecided, NothingRedone;
      TrackingParts(g, digest, e.run, t, calls, steps);
      if n < |ts| {
        StoppedRound(g, digest, e, t, calls, steps, ts, n);
        ServingJobs(g, digest, store.View(), runner.calls, steps);
      } else {
        assert ts[..n] == ts;
        FullRound(g, digest, e, t, calls, steps, ts);
        TrackingParts(g, digest, e.run, store.View(), runner.calls, steps);
        RoundKeepsDecided(g, e.run, CoresOf(g, t));
      }
      RedoesNothing(g, digest, t, calls, store.View(), runner.calls, steps);
    }

    /** The bounded drain. It keeps every job on track, strands nothing, redoes
        nothing and reports a stop of the gate. A drain that is not stopped, with or
        without a gate, performs exactly maxRounds rounds' worth of work: rounds
        after the first empty one would change nothing. `rounds` is how many
        non-empty rounds were run to the end; from wherever the drain began it is at
        most one more than would decide the plan from dispatch, and from a whole
        number of rounds after dispatch none more. */
    method RunToCompletion(owner: string, now: int, maxRounds: nat,
                           ghost g: Graph, ghost digest: string)
      returns (status: RunStatus, ghost rounds: nat)
      requires Draining(g, digest)
      modifies store, runner, this`consulted
      ensures Draining(g, digest) && rounds <= maxRounds
      ensures status != RunCompleted ==> WithStatus(Cores(g), Ready) != {} && gate.Some?
      ensures Heard(gate, old(consulted), consulted, HeardOf(status))
      ensures status == RunCompleted && rounds < maxRounds ==> WithStatus(Cores(g), Ready) == {}
      ensures status == RunCompleted ==>
        Advanced(g, runner.outcomes, old(Cores(g)), Cores(g), maxRounds)
      ensures rounds > 0 ==> NotDoneBy(g, runner.outcomes, old(Cores(g)), rounds - 1)
      ensures rounds > 0 ==> NotYetDone(g, runner.outcomes, rounds - 1)
      ensures status == RunCompleted ==> CaughtUp(g, runner.outcomes, Cores(g), maxRounds)
      ensures NothingRedone(g, old(Cores(g)), old(runner.calls), Cores(g), runner.calls)
    {
      hide *;
      DrainingParts(g, digest, now);
      ghost var c, calls := Cores(g), runner.calls;
      AdvancedByNothing(g, runner.outcomes, c);
      CaughtUpByNothing(g, runner.outcomes, c);
      NothingRedoneYet(g, c, calls);
      HeardNothing(gate, consulted);
      HearsExactly(Executed([]));
      rounds := 0;
      var i := 0;
      while i < maxRounds
        invariant Heard(gate, old(consulted), consulted, Continue)
        invariant 0 <= rounds == i <= maxRounds && Draining(g, digest)
        invariant Stratified(g) && forall k | k in g :: JobId(k) in store.jobs
        invariant Cores(g).Keys == g.Keys && OnTrack(g, runner.outcomes, Cores(g))
        invariant Advanced(g, runner.outcomes, c, Cores(g), rounds)
        invariant CaughtUp(g, runner.outcomes, Cores(g), rounds)
        invariant rounds > 0 ==> NotDoneBy(g, runner.outcomes, c, rounds - 1)
        invariant rounds > 0 ==> NotYetDone(g, runner.outcomes, rounds - 1)
        invariant NothingRedone(g, c, calls, Cores(g), runner.calls)
      {
        ghost var before, made, asked := Cores(g), runner.calls, consulted;
        var r := DrainRound(owner, now, g, digest);
        HearsExactly(r);
        HeardMore(gate, old(consulted), asked, consulted, HeardIn(r));
        DrainingParts(g, digest, now);
        NothingRedoneOn(g, c, calls, before, made, Cores(g), runner.calls);
        if r.RoundPaused? {
          status := RunPaused;
          return;
        }
        if r.RoundCancelled? {
          status := RunCancelled;
          return;
        }
        AdvancedByRound(g, runner.outcomes, c, before, rounds);
        CatchUpRound(g, runner.outcomes, before, rounds);
        if r.jobs == [] {
          AdvancedToTheEnd(g, runner.outcomes, c, Cores(g), rounds + 1, maxRounds);
          CaughtUpToTheEnd(g, runner.outcomes, Cores(g), maxRounds);
          status := RunCompleted;
          return;
        }
        ReadyNotDone(g, runner.outcomes, c, before, rounds);
        ReadyNotYetDone(g, runner.outcomes, before, rounds);
        i := i + 1;
        rounds := i;
      }
      status := RunCompleted;
    }

    /** One job per step, idempotent on plan digest and step key. */
    method Dispatch(plan: ExecutionPlan) returns (created: seq<Job>)
      requires store.Valid()
      modifies store, this`steps
      ensures store.Valid() && |created| == |plan.steps|
      ensures store.View()
           == Jobs.Run(old(store.View()), DispatchOps(plan.digest, plan.steps), store.ttl)
      ensures steps == KnownSteps(old(steps), plan.steps)
    {
      hide *;
      created := [];
      ghost var t, known := store.View(), steps;
      ghost var ops := DispatchOps(plan.digest, plan.steps);
      DispatchBegins(plan);
      var i := 0;
      while i < |plan.steps|
        invariant 0 <= i <= |plan.steps| && |created| == i && store.Valid() && t.Valid()
        invariant store.View() == Jobs.Run(t, ops[..i], store.ttl)
        invariant steps == KnownSteps(known, plan.steps[..i])
      {
        DispatchNext(t, plan.digest, plan.steps, i, store.ttl, known);
        var stored := AddStep(plan.digest, plan.steps[i]);
        created := created + [stored];
        i := i + 1;
      }
      assert ops[..i] == ops && plan.steps[..i] == plan.steps;
    }

    lemma DispatchBegins(plan: ExecutionPlan)
      requires store.Valid()
      ensures store.View().Valid()
      ensures Jobs.Run(store.View(), DispatchOps(plan.digest, plan.steps)[..0], store.ttl)
           == store.View()
      ensures KnownSteps(steps, plan.steps[..0]) == steps
    {
    }

    method AddStep(digest: string, s: PlanStep) returns (stored: Job)
      requires store.Valid() && store.View().Valid()
      modifies store, this`steps
      ensures store.Valid()
      ensures store.View() == After(old(store.View()), Add(NewJob(digest, s)), store.ttl)
      ensures steps == old(steps)[s.key := s]
    {
      stored := store.AddJob(Job(
        "job:" + s.key, s.key, digest + ":" + s.key,
        if s.dependencies != [] then Blocked else Ready, 0, MAX_ATTEMPTS,
        None, None, "", None, s.dependencies));
      steps := steps[s.key := s];
    }
  }
}
