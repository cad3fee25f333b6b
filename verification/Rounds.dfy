/** Rounds over the job table, as values: what running a set of jobs once does to
    the table, how a worker pool gets there task by task, and how a round of the
    table is a round of the cores that DrainSpec speaks of. */
module Rounds {
  import opened Wrappers
  import opened Plans
  import opened Jobs
  import opened DrainSpec

  datatype Decision = Continue | Pause | Cancel

  function JobId(k: string): string {
    "job:" + k
  }

  lemma JobIdsDiffer(k: string, l: string)
    requires k != l
    ensures JobId(k) != JobId(l)
  {
    assert JobId(k)[4..] == k && JobId(l)[4..] == l;
  }

  function IdempotencyKey(digest: string, k: string): string {
    digest + ":" + k
  }

  lemma IdempotencyKeysDiffer(digest: string, k: string, l: string)
    requires k != l
    ensures IdempotencyKey(digest, k) != IdempotencyKey(digest, l)
  {
    var n := |digest| + 1;
    assert IdempotencyKey(digest, k)[n..] == k && IdempotencyKey(digest, l)[n..] == l;
  }

  lemma PutTwice(t: Table, id: string, a: Job, b: Job)
    ensures t.Put(id, a).Put(id, b) == t.Put(id, b)
  {
    assert t.Put(id, a).Put(id, b).jobs == t.jobs[id := b];
  }

  // ------------------------------------------------- the tables of one plan

  function CoreOf(j: Job): Core {
    Core(j.status, j.attempt, j.resultDigest, j.failureClass)
  }

  /** The store holds exactly the jobs of the plan with this graph and digest. */
  ghost predicate PlanTable(g: Graph, digest: string, t: Table) {
    && t.Valid()
    && (forall k | k in g :: JobId(k) in t.jobs && OfStep(g, digest, k, t.jobs[JobId(k)]))
    && (forall id | id in t.jobs :: t.jobs[id].stepKey in g && id == JobId(t.jobs[id].stepKey))
  }

  ghost predicate OfStep(g: Graph, digest: string, k: string, j: Job)
    requires k in g
  {
    && j.stepKey == k && j.dependencies == g[k] && j.maxAttempts == MAX_ATTEMPTS
    && j.idempotencyKey == IdempotencyKey(digest, k)
  }

  ghost function CoresOf(g: Graph, t: Table): Cores
    requires forall k | k in g :: JobId(k) in t.jobs
  {
    map k | k in g :: CoreOf(t.jobs[JobId(k)])
  }

  /** Recording an outcome on a leased job, with its retry decision. */
  function Recorded(o: StepOutcome, leased: Job): Job {
    match o
    case Produced(digest) => CompletedJob(leased, digest)
    case StepFailure(f) =>
      if PolicyFailure(f) then FailedJob(leased, f)
      else if Retryable(f) && leased.attempt < leased.maxAttempts then RequeuedJob(leased)
      else FailedJob(leased, f)
  }

  /** What the run of a job that stood as j leaves of it, failure by failure. */
  predicate Settles(o: StepOutcome, j: Job, after: Job) {
    && after.attempt == j.attempt + 1
    && match o
       case Produced(digest) => after.status == Succeeded && after.resultDigest == digest
       case StepFailure(f) =>
         match f
         case OutOfScope | NotApproved => after.status == PolicyDenied && after.failureClass == Some(f)
         case InputInvalid | ParseFailed => after.status == Failed && after.failureClass == Some(f)
         case WorkerUnavailable | Timeout =>
           if j.attempt + 1 < j.maxAttempts
           then after.status == Ready && after.leaseOwner == None && after.leaseExpiresAt == None
           else after.status == Failed && after.failureClass == Some(f)
  }

  lemma RecordedSettles(o: StepOutcome, j: Job, owner: string, now: int, ttl: int)
    ensures Settles(o, j, Recorded(o, LeasedJob(j, owner, now, ttl)))
  {
  }

  /** The store call that records an outcome. */
  function OutcomeOp(o: StepOutcome, leased: Job): Op {
    match o
    case Produced(digest) => Complete(leased.id, digest)
    case StepFailure(f) =>
      if !PolicyFailure(f) && Retryable(f) && leased.attempt < leased.maxAttempts
      then Requeue(leased.id)
      else Fail(leased.id, f)
  }

  /** An execution requeues its job only as a driven history allows, whatever has
      happened to the job since it was leased. */
  lemma OutcomeIsDriven(o: StepOutcome, leased: Job, attempt: nat, used: set<nat>)
    requires OutcomeOp(o, leased).Requeue?
    requires 1 <= leased.attempt <= attempt && leased.attempt !in used
    ensures CanRequeue(leased.attempt, attempt, leased.maxAttempts, used)
    ensures o.StepFailure? && Retryable(o.failure)
  {
  }

  lemma ExecutionSteps(t: Table, id: string, o: StepOutcome, owner: string, now: int, ttl: int)
    requires t.Valid() && id in t.jobs && CanLease(t.jobs[id], now)
    ensures
      var leased := LeasedJob(t.jobs[id], owner, now, ttl);
      && After(t, Lease(id, owner, now), ttl) == t.Put(id, leased)
      && After(t.Put(id, leased), OutcomeOp(o, leased), ttl) == t.Put(id, Recorded(o, leased))
  {
    var leased := LeasedJob(t.jobs[id], owner, now, ttl);
    PutTwice(t, id, leased, Recorded(o, leased));
  }

  /** One undisturbed execution, lease and record, is a driven history. */
  lemma ExecutionIsDriven(t: Table, id: string, o: StepOutcome, owner: string, now: int, ttl: int,
                          used: set<nat>)
    requires t.Valid() && id in t.jobs && CanLease(t.jobs[id], now)
    requires t.jobs[id].attempt + 1 !in used
    ensures
      var j := t.jobs[id];
      var ops := [Lease(id, owner, now), OutcomeOp(o, LeasedJob(j, owner, now, ttl))];
      && Driven(t, ops, ttl, id, j.maxAttempts, used)
      && Jobs.Run(t, ops, ttl) == t.Put(id, Recorded(o, LeasedJob(j, owner, now, ttl)))
  {
    hide After, Recorded, CanLease;
    var j := t.jobs[id];
    var leased := LeasedJob(j, owner, now, ttl);
    var lease, record := Lease(id, owner, now), OutcomeOp(o, leased);
    ExecutionSteps(t, id, o, owner, now, ttl);
    RunTwo(t, lease, record, ttl);
    assert [lease, record][1..] == [record] && [record][1..] == [];
    var t1 := t.Put(id, leased);
    if record.Requeue? {
      assert CanRequeue(j.attempt + 1, t1.jobs[id].attempt, j.maxAttempts, used);
      assert Driven(After(t1, record, ttl), [], ttl, id, j.maxAttempts, used + {j.attempt + 1});
    }
    assert Driven(t1, [record], ttl, id, j.maxAttempts, used);
  }

  lemma RunTwo(t: Table, a: Op, b: Op, ttl: int)
    requires t.Valid()
    ensures Jobs.Run(t, [a, b], ttl) == After(After(t, a, ttl), b, ttl)
  {
    hide After;
    assert [a, b][1..] == [b] && [b][1..] == [];
    assert Jobs.Run(After(t, a, ttl), [b], ttl) == After(After(t, a, ttl), b, ttl);
  }

  /** What one drain fixes: the step outcomes, the lease owner, the clock. */
  datatype Env = Env(run: Outcomes, owner: string, now: int, ttl: int)

  function LeasedIn(e: Env, j: Job): Job {
    LeasedJob(j, e.owner, e.now, e.ttl)
  }

  /** A job after one lease, run and record. */
  function Ran(e: Env, j: Job): Job {
    Recorded(e.run(j.stepKey, j.attempt + 1), LeasedIn(e, j))
  }

  /** The jobs returned for the targets `js`, in target order. */
  ghost predicate AreResults(e: Env, js: seq<Job>, rs: seq<Job>) {
    |rs| == |js| && forall i | 0 <= i < |js| :: rs[i] == Ran(e, js[i])
  }

  lemma AreResultsMore(e: Env, js: seq<Job>, n: nat, rs: seq<Job>)
    requires n < |js| && AreResults(e, js[..n], rs)
    ensures AreResults(e, js[..n + 1], rs + [Ran(e, js[n])])
  {
  }

  lemma AreResultsAll(e: Env, js: seq<Job>, rs: seq<Job>)
    requires |rs| == |js| && forall i | 0 <= i < |js| :: rs[i] == Ran(e, js[i])
    ensures AreResults(e, js, rs)
  {
  }

  function IdsOf(js: seq<Job>): set<string> {
    if js == [] then {} else IdsOf(js[..|js| - 1]) + {js[|js| - 1].id}
  }

  function StepsOf(js: seq<Job>): set<string> {
    if js == [] then {} else StepsOf(js[..|js| - 1]) + {js[|js| - 1].stepKey}
  }

  lemma {:induction false} IdAndStepMembers(js: seq<Job>)
    ensures forall id :: id in IdsOf(js) <==> exists i | 0 <= i < |js| :: js[i].id == id
    ensures forall k :: k in StepsOf(js) <==> exists i | 0 <= i < |js| :: js[i].stepKey == k
  {
    if js != [] {
      IdAndStepMembers(js[..|js| - 1]);
    }
  }

  lemma OneMore(js: seq<Job>, i: nat)
    requires i < |js|
    ensures IdsOf(js[..i + 1]) == IdsOf(js[..i]) + {js[i].id}
    ensures StepsOf(js[..i + 1]) == StepsOf(js[..i]) + {js[i].stepKey}
  {
    assert js[..i + 1][..i] == js[..i];
  }

  /** The table after every job in `ids` ran once. */
  ghost function RanTable(e: Env, t: Table, ids: set<string>): Table {
    Table(t.ids, map id | id in t.jobs :: if id in ids then Ran(e, t.jobs[id]) else t.jobs[id])
  }

  lemma RanTableExtends(e: Env, t: Table, js: seq<Job>, i: nat)
    requires i < |js| && Distinct(js) && js[i].id in t.jobs && js[i] == t.jobs[js[i].id]
    ensures RanTable(e, t, IdsOf(js[..i])).Put(js[i].id, Ran(e, js[i]))
         == RanTable(e, t, IdsOf(js[..i + 1]))
    ensures js[i].id !in IdsOf(js[..i])
  {
    OneMore(js, i);
    IdAndStepMembers(js[..i]);
  }

  lemma StepsExtend(js: seq<Job>, i: nat)
    requires i < |js| && Distinct(js) && forall j | j in js :: j.id == JobId(j.stepKey)
    ensures StepsOf(js[..i + 1]) == StepsOf(js[..i]) + {js[i].stepKey}
    ensures js[i].stepKey !in StepsOf(js[..i])
  {
    OneMore(js, i);
    IdAndStepMembers(js[..i]);
  }

  ghost function SucceededSteps(t: Table): set<string> {
    set id | id in t.jobs && t.jobs[id].status == Succeeded :: t.jobs[id].stepKey
  }

  /** The table after every BLOCKED job among `ids` with all dependencies in
      `succeeded` became READY. */
  ghost function ResolvedIn(t: Table, ids: set<string>, succeeded: set<string>): Table {
    Table(t.ids, map id | id in t.jobs ::
                   if id in ids && t.jobs[id].status == Blocked
                      && SetOf(t.jobs[id].dependencies) <= succeeded
                   then t.jobs[id].(status := Ready) else t.jobs[id])
  }

  ghost function Resolved(t: Table): Table {
    ResolvedIn(t, t.jobs.Keys, SucceededSteps(t))
  }

  /** `all()` of the store. */
  ghost predicate AllOf(t: Table, js: seq<Job>) {
    && t.Valid() && |js| == |t.ids|
    && forall i | 0 <= i < |js| :: js[i] == t.jobs[t.ids[i]] && js[i].id == t.ids[i]
  }

  lemma SucceededAmongAll(t: Table, js: seq<Job>)
    requires AllOf(t, js)
    ensures (set j | j in js && j.status == Succeeded :: j.stepKey) == SucceededSteps(t)
  {
    forall id | id in t.jobs ensures t.jobs[id] in js {
      var i :| 0 <= i < |t.ids| && t.ids[i] == id;
      assert js[i] == t.jobs[id];
    }
  }

  lemma ResolveNext(t: Table, js: seq<Job>, succeeded: set<string>, i: nat)
    requires AllOf(t, js) && i < |js|
    ensures
      var j, v := js[i], ResolvedIn(t, IdsOf(js[..i]), succeeded);
      && j.id in v.jobs && v.jobs[j.id] == j
      && ResolvedIn(t, IdsOf(js[..i + 1]), succeeded)
         == (if j.status == Blocked && SetOf(j.dependencies) <= succeeded
             then v.Put(j.id, j.(status := Ready)) else v)
  {
    hide Table.Valid;
    OneMore(js, i);
    AllApart(t, js);
    assert js[i] in js;
    assert js[i].id !in IdsOf(js[..i]) by {
      IdAndStepMembers(js[..i]);
    }
    ResolvePut(t, js[i], IdsOf(js[..i]), succeeded);
  }

  lemma AllApart(t: Table, js: seq<Job>)
    requires AllOf(t, js)
    ensures Distinct(js) && forall j | j in js :: j.id in t.jobs && t.jobs[j.id] == j
  {
  }

  lemma ResolvePut(t: Table, j: Job, ids: set<string>, succeeded: set<string>)
    requires j.id in t.jobs && t.jobs[j.id] == j && j.id !in ids
    ensures
      var v := ResolvedIn(t, ids, succeeded);
      && j.id in v.jobs && v.jobs[j.id] == j
      && ResolvedIn(t, ids + {j.id}, succeeded)
         == (if j.status == Blocked && SetOf(j.dependencies) <= succeeded
             then v.Put(j.id, j.(status := Ready)) else v)
  {
  }

  lemma ResolveEnds(t: Table, js: seq<Job>, succeeded: set<string>)
    requires AllOf(t, js)
    ensures ResolvedIn(t, IdsOf(js[..0]), succeeded) == t
    ensures ResolvedIn(t, IdsOf(js[..|js|]), succeeded) == ResolvedIn(t, t.jobs.Keys, succeeded)
  {
    hide IdsOf, Table.Valid;
    AllIds(t, js);
    NoIds(js);
  }

  lemma NoIds(js: seq<Job>)
    ensures IdsOf(js[..0]) == {}
  {
  }

  lemma AllIds(t: Table, js: seq<Job>)
    requires AllOf(t, js)
    ensures js[..|js|] == js && forall id | id in t.jobs :: id in IdsOf(js)
  {
    hide IdsOf;
    IdAndStepMembers(js);
    forall id | id in t.jobs ensures id in IdsOf(js) {
      var i :| 0 <= i < |t.ids| && t.ids[i] == id;
      assert js[i].id == id;
    }
  }

  function WithStep(js: seq<Job>, steps: map<string, PlanStep>): seq<Job> {
    if js == [] then []
    else
      var rest := WithStep(js[..|js| - 1], steps);
      var last := js[|js| - 1];
      if last.stepKey in steps then rest + [last] else rest
  }

  lemma {:induction false} WithStepKeepsAll(js: seq<Job>, steps: map<string, PlanStep>)
    requires forall j | j in js :: j.stepKey in steps
    ensures WithStep(js, steps) == js
  {
    if js != [] {
      WithStepKeepsAll(js[..|js| - 1], steps);
    }
  }

  /** The gate's answer to its n-th consultation; without a gate nothing stops. */
  function Answer(gate: Option<nat -> Decision>, n: nat): Decision {
    if gate.None? then Continue else gate.value(n)
  }

  /** The gate was asked from `from` up to `to`, and d is what came of it: nothing but
      leave to go on, or such leave until a last answer that stops. */
  ghost predicate Heard(gate: Option<nat -> Decision>, from: nat, to: nat, d: Decision) {
    if d == Continue then from <= to && forall k | from <= k < to :: Answer(gate, k) == Continue
    else from < to && Answer(gate, to - 1) == d
         && forall k | from <= k < to - 1 :: Answer(gate, k) == Continue
  }

  lemma HeardMore(gate: Option<nat -> Decision>, from: nat, mid: nat, to: nat, d: Decision)
    requires Heard(gate, from, mid, Continue) && Heard(gate, mid, to, d)
    ensures Heard(gate, from, to, d)
  {
  }

  lemma HeardNothing(gate: Option<nat -> Decision>, from: nat)
    ensures Heard(gate, from, from, Continue)
  {
  }

  lemma HeardUpTo(gate: Option<nat -> Decision>, from: nat, n: nat, d: Decision)
    requires forall k | from <= k < from + n :: Answer(gate, k) == Continue
    requires d != Continue ==> Answer(gate, from + n) == d
    ensures Heard(gate, from, from + n + (if d == Continue then 0 else 1), d)
  {
  }

  /** How many of the n answers from `from` on come before the first stop. */
  ghost function FirstStop(gate: Option<nat -> Decision>, from: nat, n: nat): (i: nat)
    ensures i <= n
    ensures forall k | from <= k < from + i :: Answer(gate, k) == Continue
    ensures i < n ==> Answer(gate, from + i) != Continue
    decreases n
  {
    if n == 0 || Answer(gate, from) != Continue then 0
    else 1 + FirstStop(gate, from + 1, n - 1)
  }

  lemma {:induction false} FirstStopIs(gate: Option<nat -> Decision>, from: nat, n: nat, i: nat)
    requires i <= n && forall k | from <= k < from + i :: Answer(gate, k) == Continue
    requires i < n ==> Answer(gate, from + i) != Continue
    ensures FirstStop(gate, from, n) == i
    decreases i
  {
    if i > 0 {
      FirstStopIs(gate, from + 1, n - 1, i - 1);
    }
  }

  function CallsIn(calls: map<string, nat>, k: string): nat {
    if k in calls then calls[k] else 0
  }

  /** The call counts after each of these steps was run once more. */
  function Bumped(calls: map<string, nat>, ks: set<string>): map<string, nat> {
    map k | k in calls.Keys + ks :: CallsIn(calls, k) + if k in ks then 1 else 0
  }

  lemma NothingRanYet(e: Env, t: Table, calls: map<string, nat>, ts: seq<Job>)
    ensures RanTable(e, t, IdsOf(ts[..0])) == t
    ensures Bumped(calls, StepsOf(ts[..0])) == calls
  {
  }

  lemma BumpedMore(calls: map<string, nat>, ks: set<string>, k: string)
    requires k !in ks
    ensures Bumped(Bumped(calls, ks), {k}) == Bumped(calls, ks + {k})
    ensures CallsIn(Bumped(calls, ks), k) == CallsIn(calls, k)
  {
  }

  /** After the first i targets ran, the next one still stands as it did, and
      running it leads to the table and call counts after i + 1. */
  lemma NextTarget(e: Env, t: Table, calls: map<string, nat>, steps: map<string, PlanStep>,
                   ts: seq<Job>, now: int, i: nat)
    requires i < |ts| && Runnable(t, calls, steps, ts, now)
    ensures
      var j, v, c := ts[i], RanTable(e, t, IdsOf(ts[..i])), Bumped(calls, StepsOf(ts[..i]));
      && j.id in v.jobs && v.jobs[j.id] == j && CanLease(j, now)
      && j.stepKey in steps && steps[j.stepKey].key == j.stepKey
      && CallsIn(c, j.stepKey) == j.attempt
      && v.Put(j.id, Ran(e, j)) == RanTable(e, t, IdsOf(ts[..i + 1]))
      && Bumped(c, {j.stepKey}) == Bumped(calls, StepsOf(ts[..i + 1]))
  {
    assert ts[i] in ts;
    RanTableExtends(e, t, ts, i);
    StepsExtend(ts, i);
    BumpedMore(calls, StepsOf(ts[..i]), ts[i].stepKey);
  }

  /** Jobs a round may run: as they stand in the table, leaseable, with a known
      step that has been run once per recorded attempt, each once. */
  ghost predicate Runnable(t: Table, calls: map<string, nat>, steps: map<string, PlanStep>,
                           ts: seq<Job>, now: int) {
    && Distinct(ts)
    && (forall j | j in ts ::
          && j.id in t.jobs && t.jobs[j.id] == j && j.id == JobId(j.stepKey)
          && CanLease(j, now)
          && j.stepKey in steps && steps[j.stepKey].key == j.stepKey
          && CallsIn(calls, j.stepKey) == j.attempt)
  }

  // ------------------------------------------------- a round on a worker pool

  function IdsAt(ts: seq<Job>, at: set<nat>): set<string> {
    set i | i in at && i < |ts| :: ts[i].id
  }

  function StepsAt(ts: seq<Job>, at: set<nat>): set<string> {
    set i | i in at && i < |ts| :: ts[i].stepKey
  }

  /** The table while some targets have finished and others are being run. */
  ghost function PoolTable(e: Env, t: Table, ts: seq<Job>, done: set<nat>, running: set<nat>): Table {
    Table(t.ids, map id | id in t.jobs ::
                   if id in IdsAt(ts, done) then Ran(e, t.jobs[id])
                   else if id in IdsAt(ts, running) then LeasedIn(e, t.jobs[id])
                   else t.jobs[id])
  }

  lemma TargetsApart(ts: seq<Job>, i: nat, at: set<nat>)
    requires i < |ts| && Distinct(ts) && forall j | j in ts :: j.id == JobId(j.stepKey)
    ensures ts[i].id in IdsAt(ts, at) <==> i in at
    ensures ts[i].stepKey in StepsAt(ts, at) <==> i in at
  {
    if k :| k in at && k < |ts| && k != i {
      assert ts[k].id != ts[i].id by {
        if k < i { assert ts[k].id != ts[i].id; } else { assert ts[i].id != ts[k].id; }
      }
    }
  }

  lemma IdsAtUpdate(ts: seq<Job>, i: nat, at: set<nat>)
    requires i < |ts| && Distinct(ts) && forall j | j in ts :: j.id == JobId(j.stepKey)
    ensures IdsAt(ts, at + {i}) == IdsAt(ts, at) + {ts[i].id}
    ensures StepsAt(ts, at + {i}) == StepsAt(ts, at) + {ts[i].stepKey}
    ensures IdsAt(ts, at - {i}) == IdsAt(ts, at) - {ts[i].id}
  {
    forall id ensures id in IdsAt(ts, at - {i}) <==> id in IdsAt(ts, at) - {ts[i].id} {
      if id in IdsAt(ts, at) - {ts[i].id} {
        var k :| k in at && k < |ts| && ts[k].id == id;
        assert k in at - {i};
      }
      TargetsApart(ts, i, at - {i});
    }
  }

  /** Starting a submitted task: it stands as it did, and leasing it leads on. */
  lemma PoolStart(e: Env, t: Table, calls: map<string, nat>, steps: map<string, PlanStep>,
                  ts: seq<Job>, done: set<nat>, running: set<nat>, i: nat)
    requires i < |ts| && Runnable(t, calls, steps, ts, e.now) && i !in done && i !in running
    ensures
      var j, v := ts[i], PoolTable(e, t, ts, done, running);
      && j.id in v.jobs && v.jobs[j.id] == j && CanLease(j, e.now)
      && v.Put(j.id, LeasedIn(e, j)) == PoolTable(e, t, ts, done, running + {i})
  {
    assert ts[i] in ts;
    TargetsApart(ts, i, done);
    TargetsApart(ts, i, running);
    IdsAtUpdate(ts, i, running);
  }

  lemma RunnableTarget(t: Table, calls: map<string, nat>, steps: map<string, PlanStep>,
                       ts: seq<Job>, now: int, i: nat)
    requires i < |ts| && Runnable(t, calls, steps, ts, now)
    ensures
      var j := ts[i];
      && j.id in t.jobs && t.jobs[j.id] == j && CanLease(j, now)
      && j.stepKey in steps && steps[j.stepKey].key == j.stepKey
      && CallsIn(calls, j.stepKey) == j.attempt
    ensures Distinct(ts) && forall j | j in ts :: j.id == JobId(j.stepKey)
  {
    assert ts[i] in ts;
  }

  lemma PoolTableFinish(e: Env, t: Table, j: Job, v: Table, next: Table,
                        done: set<string>, running: set<string>)
    requires j.id in t.jobs && t.jobs[j.id] == j && j.id in running && j.id !in done
    requires v == Table(t.ids, map id | id in t.jobs ::
                          if id in done then Ran(e, t.jobs[id])
                          else if id in running then LeasedIn(e, t.jobs[id])
                          else t.jobs[id])
    requires next == Table(t.ids, map id | id in t.jobs ::
                             if id in done + {j.id} then Ran(e, t.jobs[id])
                             else if id in running - {j.id} then LeasedIn(e, t.jobs[id])
                             else t.jobs[id])
    ensures v.jobs[j.id] == LeasedIn(e, j) && v.Put(j.id, Ran(e, j)) == next
  {
    hide Ran, LeasedIn;
  }

  /** Finishing a running task: it holds its lease, and recording it leads on. */
  lemma PoolFinish(e: Env, t: Table, calls: map<string, nat>, steps: map<string, PlanStep>,
                   ts: seq<Job>, done: set<nat>, running: set<nat>, i: nat)
    requires i < |ts| && Runnable(t, calls, steps, ts, e.now) && i !in done && i in running
    ensures
      var j, v, c := ts[i], PoolTable(e, t, ts, done, running), Bumped(calls, StepsAt(ts, done));
      && j.id in v.jobs && v.jobs[j.id] == LeasedIn(e, j)
      && j.stepKey in steps && steps[j.stepKey].key == j.stepKey
      && CallsIn(c, j.stepKey) == j.attempt
      && v.Put(j.id, Ran(e, j)) == PoolTable(e, t, ts, done + {i}, running - {i})
      && Bumped(c, {j.stepKey}) == Bumped(calls, StepsAt(ts, done + {i}))
  {
    hide Runnable, IdsAt, StepsAt, Ran, LeasedIn, Bumped, CallsIn, CanLease, JobId, Distinct;
    RunnableTarget(t, calls, steps, ts, e.now, i);
    TargetsApart(ts, i, done);
    TargetsApart(ts, i, running);
    IdsAtUpdate(ts, i, running);
    IdsAtUpdate(ts, i, done);
    PoolTableFinish(e, t, ts[i], PoolTable(e, t, ts, done, running),
                    PoolTable(e, t, ts, done + {i}, running - {i}),
                    IdsAt(ts, done), IdsAt(ts, running));
    BumpedMore(calls, StepsAt(ts, done), ts[i].stepKey);
  }

  /** When the first n targets have all finished, the pool leaves what running
      them one after another would. */
  lemma PoolDone(e: Env, t: Table, ts: seq<Job>, n: nat, done: set<nat>)
    requires n <= |ts| && (forall i: nat :: i in done <==> i < n)
    ensures PoolTable(e, t, ts, done, {}) == RanTable(e, t, IdsOf(ts[..n]))
    ensures StepsAt(ts, done) == StepsOf(ts[..n])
  {
    IdAndStepMembers(ts[..n]);
    assert IdsAt(ts, done) == IdsOf(ts[..n]) by {
      forall id ensures id in IdsAt(ts, done) <==> id in IdsOf(ts[..n]) {
        if id in IdsAt(ts, done) {
          var i :| i in done && i < |ts| && ts[i].id == id;
          assert ts[..n][i].id == id;
        }
      }
    }
    forall k ensures k in StepsAt(ts, done) <==> k in StepsOf(ts[..n]) {
      if k in StepsAt(ts, done) {
        var i :| i in done && i < |ts| && ts[i].stepKey == k;
        assert ts[..n][i].stepKey == k;
      }
    }
  }

  lemma KeyAdded(m: map<nat, Job>, i: nat, j: Job)
    requires i !in m
    ensures |m[i := j]| == |m| + 1 && m[i := j].Keys == m.Keys + {i}
  {
    assert m[i := j].Keys == m.Keys + {i};
    assert |m[i := j].Keys| == |m.Keys| + 1;
  }

  lemma KeyRemoved(m: map<nat, Job>, i: nat)
    requires i in m
    ensures |m - {i}| < |m| && (m - {i}).Keys == m.Keys - {i}
    ensures forall k | k in m - {i} :: k in m && (m - {i})[k] == m[k]
  {
    assert (m - {i}).Keys == m.Keys - {i};
    MemberRemoved(m.Keys, i);
  }

  lemma MemberRemoved(s: set<nat>, i: nat)
    requires i in s
    ensures |s - {i}| < |s|
  {
  }

  /** The first `ran` numbers, each in exactly one of three sets. */
  ghost predicate Parted(ran: nat, waiting: set<nat>, running: set<nat>, done: set<nat>) {
    && (forall i: nat :: i < ran <==> i in waiting || i in running || i in done)
    && waiting !! running && waiting !! done && running !! done
  }

  lemma PartedStart(ran: nat, waiting: set<nat>, running: set<nat>, done: set<nat>, i: nat)
    requires Parted(ran, waiting, running, done) && i in waiting
    ensures Parted(ran, waiting - {i}, running + {i}, done) && i < ran
    ensures i !in running && i !in done
  {
  }

  lemma PartedEnd(ran: nat, waiting: set<nat>, running: set<nat>, done: set<nat>, i: nat)
    requires Parted(ran, waiting, running, done) && i in running
    ensures Parted(ran, waiting, running - {i}, done + {i}) && i < ran && i !in done
  {
  }

  /** The submitted tasks of a pool, by target index. */
  datatype Pool = Pool(waiting: set<nat>, leases: map<nat, Job>, finished: map<nat, Job>) {
    function Submitted(i: nat): Pool {
      this.(waiting := waiting + {i})
    }

    function Started(i: nat, leased: Job): Pool {
      this.(waiting := waiting - {i}, leases := leases[i := leased])
    }

    function Ended(i: nat, job: Job): Pool {
      this.(leases := leases - {i}, finished := finished[i := job])
    }

    /** The first `ran` targets are submitted, each of them is waiting, running or
        finished, and what is noted of it is right. */
    ghost predicate Right(e: Env, ts: seq<Job>, workers: nat, ran: nat) {
      && ran <= |ts| && |leases| <= workers
      && Parted(ran, waiting, leases.Keys, finished.Keys)
      && (forall i | i in leases :: i < |ts| && leases[i] == LeasedIn(e, ts[i]))
      && (forall i | i in finished :: i < |ts| && finished[i] == Ran(e, ts[i]))
    }

    lemma SubmittedRight(e: Env, ts: seq<Job>, workers: nat, ran: nat)
      requires Right(e, ts, workers, ran) && ran < |ts|
      ensures Submitted(ran).Right(e, ts, workers, ran + 1)
      ensures Submitted(ran).leases == leases && Submitted(ran).finished == finished
    {
    }

    lemma StartedRight(e: Env, ts: seq<Job>, workers: nat, ran: nat, i: nat)
      requires Right(e, ts, workers, ran) && i in waiting && |leases| < workers
      ensures i < |ts| && i !in leases.Keys && i !in finished.Keys
      ensures
        var next := Started(i, LeasedIn(e, ts[i]));
        && next.leases.Keys == leases.Keys + {i} && next.finished == finished
        && |next.waiting| < |waiting| && next.Right(e, ts, workers, ran)
    {
      hide LeasedIn, Ran, Parted;
      PartedStart(ran, waiting, leases.Keys, finished.Keys, i);
      KeyAdded(leases, i, LeasedIn(e, ts[i]));
      MemberRemoved(waiting, i);
    }

    lemma EndedRight(e: Env, ts: seq<Job>, workers: nat, ran: nat, i: nat)
      requires Right(e, ts, workers, ran) && i in leases.Keys
      ensures i < |ts| && i !in finished.Keys && leases[i] == LeasedIn(e, ts[i])
      ensures
        var next := Ended(i, Ran(e, ts[i]));
        && next.leases.Keys == leases.Keys - {i} && next.finished.Keys == finished.Keys + {i}
        && next.waiting == waiting && |next.leases| < |leases| && next.Right(e, ts, workers, ran)
    {
      hide LeasedIn, Ran, Parted;
      PartedEnd(ran, waiting, leases.Keys, finished.Keys, i);
      KeyRemoved(leases, i);
      KeyAdded(finished, i, Ran(e, ts[i]));
      var next := Ended(i, Ran(e, ts[i]));
      assert forall k | k in next.finished :: k < |ts| && next.finished[k] == Ran(e, ts[k]);
    }

    lemma ClosedRight(e: Env, ts: seq<Job>, workers: nat, ran: nat)
      requires Right(e, ts, workers, ran) && waiting == {} && leases == map[]
      ensures ran <= |ts| && forall i: nat :: i in finished.Keys <==> i < ran
      ensures forall i | 0 <= i < ran :: finished[i] == Ran(e, ts[i])
    {
    }
  }

  lemma EmptyPoolRight(e: Env, ts: seq<Job>, workers: nat)
    ensures Pool({}, map[], map[]).Right(e, ts, workers, 0)
  {
  }

  lemma PoolBegins(e: Env, t: Table, calls: map<string, nat>, ts: seq<Job>)
    ensures PoolTable(e, t, ts, {}, {}) == t
    ensures Bumped(calls, StepsAt(ts, {})) == calls
  {
    assert IdsAt(ts, {}) == {} && StepsAt(ts, {}) == {};
  }

  // ------------------------------------- from rounds of jobs to rounds of cores

  /** The store holds this plan's jobs, every step of the plan is known, and each
      step has been run once per recorded attempt. */
  ghost predicate Serving(g: Graph, digest: string, t: Table, calls: map<string, nat>,
                          steps: map<string, PlanStep>) {
    && PlanTable(g, digest, t)
    && (forall k | k in g :: CallsIn(calls, k) == t.jobs[JobId(k)].attempt)
    && (forall k | k in g :: k in steps && steps[k].key == k)
  }

  ghost predicate Tracking(g: Graph, digest: string, run: Outcomes, t: Table,
                           calls: map<string, nat>, steps: map<string, PlanStep>) {
    && Stratified(g) && Serving(g, digest, t, calls, steps)
    && OnTrack(g, run, CoresOf(g, t)) && Resumable(g, CoresOf(g, t))
  }

  ghost function Targets(t: Table, steps: map<string, PlanStep>, now: int): seq<Job>
    requires t.Valid()
  {
    WithStep(LeaseableJobs(t, now), steps)
  }

  lemma PlanTableJobs(g: Graph, digest: string, t: Table)
    requires PlanTable(g, digest, t)
    ensures forall k | k in g :: JobId(k) in t.jobs && OfStep(g, digest, k, t.jobs[JobId(k)])
  {
  }

  lemma NothingLeased(g: Graph, digest: string, run: Outcomes, t: Table,
                      calls: map<string, nat>, steps: map<string, PlanStep>)
    requires Tracking(g, digest, run, t, calls, steps)
    ensures forall id | id in t.jobs :: t.jobs[id].status != Leased
  {
    forall id | id in t.jobs ensures t.jobs[id].status != Leased {
      var k := t.jobs[id].stepKey;
      assert k in g && id == JobId(k);
      NotLeasedCore(g, run, CoresOf(g, t), k);
    }
  }

  lemma NotLeasedCore(g: Graph, run: Outcomes, c: Cores, k: string)
    requires Stratified(g) && OnTrack(g, run, c) && k in g
    ensures c[k].status != Leased
  {
    assert StepOnTrack(g, run, c, k);
  }

  /** With no lease outstanding the targets of a round are exactly the plan's
      ready steps, each once. */
  lemma TargetsAreReady(g: Graph, digest: string, t: Table, calls: map<string, nat>,
                        steps: map<string, PlanStep>, now: int)
    requires Serving(g, digest, t, calls, steps)
    requires forall id | id in t.jobs :: t.jobs[id].status != Leased
    ensures Runnable(t, calls, steps, Targets(t, steps, now), now)
    ensures StepsOf(Targets(t, steps, now)) == WithStatus(CoresOf(g, t), Ready)
  {
    var js := LeaseableJobs(t, now);
    LeaseableListsEachOnce(t, now);
    assert forall j | j in js :: j.stepKey in g && j.stepKey in steps;
    WithStepKeepsAll(js, steps);
    TargetSteps(g, digest, t, js, now);
  }

  lemma TargetSteps(g: Graph, digest: string, t: Table, js: seq<Job>, now: int)
    requires PlanTable(g, digest, t) && forall id | id in t.jobs :: t.jobs[id].status != Leased
    requires forall j :: j in js <==> j.id in t.jobs && j == t.jobs[j.id] && CanLease(j, now)
    ensures StepsOf(js) == WithStatus(CoresOf(g, t), Ready)
  {
    hide StepsOf, IdsOf;
    IdAndStepMembers(js);
    forall k | k in StepsOf(js) ensures k in WithStatus(CoresOf(g, t), Ready) {
      var i :| 0 <= i < |js| && js[i].stepKey == k;
      assert js[i] in js;
    }
    forall k | k in WithStatus(CoresOf(g, t), Ready) ensures k in StepsOf(js) {
      assert t.jobs[JobId(k)] in js;
      var i :| 0 <= i < |js| && js[i] == t.jobs[JobId(k)];
    }
  }

  /** In every state of a pool the jobs that had succeeded stand as they did. */
  lemma SuccessIsKept(e: Env, t: Table, calls: map<string, nat>, steps: map<string, PlanStep>,
                      ts: seq<Job>, done: set<nat>, running: set<nat>, id: string)
    requires Runnable(t, calls, steps, ts, e.now)
    requires id in t.jobs && t.jobs[id].status == Succeeded
    ensures id in PoolTable(e, t, ts, done, running).jobs
    ensures PoolTable(e, t, ts, done, running).jobs[id] == t.jobs[id]
  {
    hide Ran, LeasedIn, Distinct, CallsIn;
    forall i | 0 <= i < |ts| ensures ts[i].id != id {
      assert ts[i] in ts;
    }
  }

  /** Dependency safety in every intermediate state: whenever a target of the round
      waits, is leased or has run, all its dependencies have succeeded. */
  lemma PoolIsSafe(g: Graph, digest: string, e: Env, t: Table, calls: map<string, nat>,
                   steps: map<string, PlanStep>, ts: seq<Job>, done: set<nat>, running: set<nat>,
                   i: nat, d: string)
    requires Tracking(g, digest, e.run, t, calls, steps) && ts == Targets(t, steps, e.now)
    requires i < |ts| && ts[i].stepKey in g && d in g[ts[i].stepKey]
    ensures
      var v := PoolTable(e, t, ts, done, running);
      JobId(d) in v.jobs && v.jobs[JobId(d)].status == Succeeded
  {
    hide *;
    var k := ts[i].stepKey;
    TrackingParts(g, digest, e.run, t, calls, steps);
    NothingLeased(g, digest, e.run, t, calls, steps);
    TargetsAreReady(g, digest, t, calls, steps, e.now);
    TargetsPrefix(t, calls, steps, ts, e.now, i);
    assert ts == ts[..|ts|];
    ReadyIsTracked(CoresOf(g, t), StepsOf(ts), k);
    TrackedStepIsSafe(g, e.run, CoresOf(g, t), k);
    SucceededJob(g, t, d, k);
    SuccessIsKept(e, t, calls, steps, ts, done, running, JobId(d));
  }

  lemma ReadyIsTracked(c: Cores, ks: set<string>, k: string)
    requires ks == WithStatus(c, Ready) && k in ks
    ensures k in c && c[k] != BLOCKED_CORE
  {
  }

  lemma SucceededJob(g: Graph, t: Table, d: string, k: string)
    requires forall x | x in g :: JobId(x) in t.jobs
    requires k in g && d in g[k]
    requires forall x | x in g[k] :: x in CoresOf(g, t) && CoresOf(g, t)[x].status == Succeeded
    ensures JobId(d) in t.jobs && t.jobs[JobId(d)].status == Succeeded
  {
  }

  lemma RanCore(e: Env, j: Job)
    requires j.maxAttempts == MAX_ATTEMPTS
    ensures CoreOf(Ran(e, j)) == Attempted(e.run, j.stepKey, CoreOf(j))
    ensures Ran(e, j) == j.(status := Ran(e, j).status, attempt := j.attempt + 1,
                            leaseOwner := Ran(e, j).leaseOwner,
                            leaseExpiresAt := Ran(e, j).leaseExpiresAt,
                            resultDigest := Ran(e, j).resultDigest,
                            failureClass := Ran(e, j).failureClass)
  {
  }

  lemma RanPlanTable(g: Graph, digest: string, e: Env, t: Table, ids: set<string>)
    requires PlanTable(g, digest, t)
    ensures PlanTable(g, digest, RanTable(e, t, ids))
  {
    forall id | id in t.jobs
      ensures RanTable(e, t, ids).jobs[id].id == id
      ensures RanTable(e, t, ids).jobs[id].stepKey == t.jobs[id].stepKey
      ensures OfStep(g, digest, t.jobs[id].stepKey, RanTable(e, t, ids).jobs[id])
    {
      assert OfStep(g, digest, t.jobs[id].stepKey, t.jobs[JobId(t.jobs[id].stepKey)]);
      RanCore(e, t.jobs[id]);
    }
  }

  lemma TargetMembers(g: Graph, digest: string, t: Table, ts: seq<Job>, k: string)
    requires PlanTable(g, digest, t) && k in g
    requires forall j | j in ts :: j.id in t.jobs && t.jobs[j.id] == j
    ensures JobId(k) in IdsOf(ts) <==> k in StepsOf(ts)
  {
    IdAndStepMembers(ts);
    if i :| 0 <= i < |ts| && ts[i].id == JobId(k) {
      assert ts[i] in ts;
    }
    if i :| 0 <= i < |ts| && ts[i].stepKey == k {
      assert ts[i] in ts;
    }
  }

  /** Running targets once is attempting their steps once. */
  lemma RanCores(g: Graph, digest: string, e: Env, t: Table, calls: map<string, nat>,
                 steps: map<string, PlanStep>, ts: seq<Job>)
    requires Serving(g, digest, t, calls, steps)
    requires forall j | j in ts :: j.id in t.jobs && t.jobs[j.id] == j
    ensures
      var t', calls' := RanTable(e, t, IdsOf(ts)), Bumped(calls, StepsOf(ts));
      && Serving(g, digest, t', calls', steps)
      && CoresOf(g, t') == AttemptAll(e.run, CoresOf(g, t), StepsOf(ts))
  {
    hide Table.Valid, IdsOf, StepsOf, Ran, Attempted, PlanTable;
    PlanTableJobs(g, digest, t);
    var t' := RanTable(e, t, IdsOf(ts));
    RanPlanTable(g, digest, e, t, IdsOf(ts));
    PlanTableJobs(g, digest, t');
    forall k | k in g
      ensures CoreOf(t'.jobs[JobId(k)])
           == if k in StepsOf(ts) then Attempted(e.run, k, CoreOf(t.jobs[JobId(k)]))
              else CoreOf(t.jobs[JobId(k)])
      ensures t'.jobs[JobId(k)].attempt
           == t.jobs[JobId(k)].attempt + if k in StepsOf(ts) then 1 else 0
    {
      assert OfStep(g, digest, k, t.jobs[JobId(k)]);
      RanCore(e, t.jobs[JobId(k)]);
      TargetMembers(g, digest, t, ts, k);
    }
  }

  lemma ResolvedPlanTable(g: Graph, digest: string, t: Table)
    requires PlanTable(g, digest, t)
    ensures PlanTable(g, digest, Resolved(t))
  {
    forall id | id in t.jobs
      ensures Resolved(t).jobs[id].id == id
      ensures OfStep(g, digest, t.jobs[id].stepKey, Resolved(t).jobs[id])
    {
      assert OfStep(g, digest, t.jobs[id].stepKey, t.jobs[JobId(t.jobs[id].stepKey)]);
    }
  }

  lemma SucceededCores(g: Graph, digest: string, t: Table)
    requires PlanTable(g, digest, t)
    ensures SucceededSteps(t) == WithStatus(CoresOf(g, t), Succeeded)
  {
    forall k | k in WithStatus(CoresOf(g, t), Succeeded) ensures k in SucceededSteps(t) {
      assert t.jobs[JobId(k)].stepKey == k;
    }
  }

  lemma ResolvedCore(g: Graph, digest: string, t: Table, k: string)
    requires PlanTable(g, digest, t) && k in g
    ensures JobId(k) in Resolved(t).jobs
    ensures Resolved(t).jobs[JobId(k)].attempt == t.jobs[JobId(k)].attempt
    ensures CoreOf(Resolved(t).jobs[JobId(k)])
         == var c := CoresOf(g, t);
            if Unblockable(g, c, k) then c[k].(status := Ready) else c[k]
  {
    hide Table.Valid, SucceededSteps, WithStatus, PlanTable;
    PlanTableJobs(g, digest, t);
    SucceededCores(g, digest, t);
    assert OfStep(g, digest, k, t.jobs[JobId(k)]);
  }

  /** Resolving dependencies is unblocking. */
  lemma ResolvedCores(g: Graph, digest: string, t: Table, calls: map<string, nat>,
                      steps: map<string, PlanStep>)
    requires Serving(g, digest, t, calls, steps)
    ensures Serving(g, digest, Resolved(t), calls, steps)
    ensures CoresOf(g, Resolved(t)) == Unblock(g, CoresOf(g, t))
  {
    hide PlanTable, Resolved, Unblockable;
    PlanTableJobs(g, digest, t);
    ResolvedPlanTable(g, digest, t);
    forall k | k in g
      ensures CoreOf(Resolved(t).jobs[JobId(k)]) == Unblock(g, CoresOf(g, t))[k]
      ensures Resolved(t).jobs[JobId(k)].attempt == t.jobs[JobId(k)].attempt
    {
      ResolvedCore(g, digest, t, k);
    }
  }

  lemma TargetsPrefix(t: Table, calls: map<string, nat>, steps: map<string, PlanStep>,
                      ts: seq<Job>, now: int, n: nat)
    requires Runnable(t, calls, steps, ts, now) && n <= |ts|
    ensures StepsOf(ts[..n]) <= StepsOf(ts)
    ensures n < |ts| ==> ts[n].stepKey in StepsOf(ts) && ts[n].stepKey !in StepsOf(ts[..n])
    ensures forall j | j in ts[..n] :: j.id in t.jobs && t.jobs[j.id] == j
  {
    hide CanLease, CallsIn, StepsOf, IdsOf;
    IdAndStepMembers(ts);
    IdAndStepMembers(ts[..n]);
    if n < |ts| {
      assert ts[n] in ts;
      forall i | 0 <= i < n ensures ts[i].stepKey != ts[n].stepKey {
        assert ts[i] in ts && ts[i].id != ts[n].id;
      }
    }
  }

  lemma StillReady(run: Outcomes, c: Cores, ks: set<string>, k: string)
    requires k in WithStatus(c, Ready) && k !in ks
    ensures k in WithStatus(AttemptAll(run, c, ks), Ready)
  {
  }

  /** A round stopped by the gate: the first n targets ran, the others are still
      ready, and nothing is stranded although dependencies were not resolved. */
  lemma StoppedRound(g: Graph, digest: string, e: Env, t: Table, calls: map<string, nat>,
                     steps: map<string, PlanStep>, ts: seq<Job>, n: nat)
    requires Tracking(g, digest, e.run, t, calls, steps)
    requires ts == Targets(t, steps, e.now) && n <= |ts|
    ensures
      var t', calls' := RanTable(e, t, IdsOf(ts[..n])), Bumped(calls, StepsOf(ts[..n]));
      && Serving(g, digest, t', calls', steps)
      && CoresOf(g, t') == AttemptAll(e.run, CoresOf(g, t), StepsOf(ts[..n]))
      && OnTrack(g, e.run, CoresOf(g, t'))
      && KeepsDecided(CoresOf(g, t), CoresOf(g, t'))
      && (n < |ts| ==> WithStatus(CoresOf(g, t'), Ready) != {})
  {
    hide *;
    TrackingParts(g, digest, e.run, t, calls, steps);
    NothingLeased(g, digest, e.run, t, calls, steps);
    TargetsAreReady(g, digest, t, calls, steps, e.now);
    TargetsPrefix(t, calls, steps, ts, e.now, n);
    RanCores(g, digest, e, t, calls, steps, ts[..n]);
    AttemptsKeepTrack(g, e.run, CoresOf(g, t), StepsOf(ts[..n]));
    AttemptsKeepDecided(e.run, CoresOf(g, t), StepsOf(ts[..n]));
    if n < |ts| {
      StillReady(e.run, CoresOf(g, t), StepsOf(ts[..n]), ts[n].stepKey);
    }
  }

  /** No decided step changed and none was run again. */
  ghost predicate NothingRedone(g: Graph, c: Cores, calls: map<string, nat>,
                                c': Cores, calls': map<string, nat>)
  {
    && KeepsDecided(c, c')
    && forall k | k in g && k in c && Decided(c[k]) :: CallsIn(calls', k) == CallsIn(calls, k)
  }

  lemma RedoesNothing(g: Graph, digest: string, t: Table, calls: map<string, nat>,
                      t': Table, calls': map<string, nat>, steps: map<string, PlanStep>)
    requires Serving(g, digest, t, calls, steps) && Serving(g, digest, t', calls', steps)
    requires forall k | k in g :: JobId(k) in t.jobs && JobId(k) in t'.jobs
    requires KeepsDecided(CoresOf(g, t), CoresOf(g, t'))
    ensures NothingRedone(g, CoresOf(g, t), calls, CoresOf(g, t'), calls')
  {
    hide PlanTable;
    forall k | k in g && Decided(CoresOf(g, t)[k]) ensures CallsIn(calls', k) == CallsIn(calls, k) {
      assert CoresOf(g, t')[k] == CoresOf(g, t)[k];
    }
  }

  lemma NothingRedoneYet(g: Graph, c: Cores, calls: map<string, nat>)
    ensures NothingRedone(g, c, calls, c, calls)
  {
  }

  lemma NothingRedoneOn(g: Graph, c0: Cores, calls0: map<string, nat>, c1: Cores,
                        calls1: map<string, nat>, c2: Cores, calls2: map<string, nat>)
    requires NothingRedone(g, c0, calls0, c1, calls1) && NothingRedone(g, c1, calls1, c2, calls2)
    ensures NothingRedone(g, c0, calls0, c2, calls2)
  {
  }

  lemma TrackingParts(g: Graph, digest: string, run: Outcomes, t: Table,
                      calls: map<string, nat>, steps: map<string, PlanStep>)
    requires Tracking(g, digest, run, t, calls, steps)
    ensures Stratified(g) && Serving(g, digest, t, calls, steps) && PlanTable(g, digest, t)
    ensures t.Valid() && forall k | k in g :: JobId(k) in t.jobs
    ensures OnTrack(g, run, CoresOf(g, t)) && Resumable(g, CoresOf(g, t))
    ensures CoresOf(g, t).Keys == g.Keys
  {
  }

  lemma ServingJobs(g: Graph, digest: string, t: Table, calls: map<string, nat>,
                    steps: map<string, PlanStep>)
    requires Serving(g, digest, t, calls, steps)
    ensures t.Valid() && forall k | k in g :: JobId(k) in t.jobs
    ensures CoresOf(g, t).Keys == g.Keys
  {
  }

  /** A full round of the table is a round of its cores. */
  lemma FullRound(g: Graph, digest: string, e: Env, t: Table, calls: map<string, nat>,
                  steps: map<string, PlanStep>, ts: seq<Job>)
    requires Tracking(g, digest, e.run, t, calls, steps) && ts == Targets(t, steps, e.now)
    ensures
      var t', calls' := Resolved(RanTable(e, t, IdsOf(ts))), Bumped(calls, StepsOf(ts));
      && Tracking(g, digest, e.run, t', calls', steps)
      && CoresOf(g, t') == Round(g, e.run, CoresOf(g, t))
      && (ts == [] <==> WithStatus(CoresOf(g, t), Ready) == {})
      && (ts == [] ==> WithStatus(CoresOf(g, t'), Ready) == {})
  {
    hide *;
    var t' := RanTable(e, t, IdsOf(ts));
    var calls' := Bumped(calls, StepsOf(ts));
    TrackingParts(g, digest, e.run, t, calls, steps);
    assert ts[..|ts|] == ts;
    StoppedRound(g, digest, e, t, calls, steps, ts, |ts|);
    ServingJobs(g, digest, t', calls', steps);
    NothingLeased(g, digest, e.run, t, calls, steps);
    TargetsAreReady(g, digest, t, calls, steps, e.now);
    ResolvedCores(g, digest, t', calls', steps);
    ServingJobs(g, digest, Resolved(t'), calls', steps);
    UnblockKeepsTrack(g, e.run, CoresOf(g, t'));
    FullRoundTracks(g, digest, e.run, CoresOf(g, t), Resolved(t'), calls', steps);
    SomeStep(ts);
    if ts == [] {
      EmptyRoundChangesNothing(g, e.run, CoresOf(g, t));
    }
  }

  lemma SomeStep(ts: seq<Job>)
    ensures ts == [] <==> StepsOf(ts) == {}
  {
    if ts != [] {
      assert ts[|ts| - 1].stepKey in StepsOf(ts);
    }
  }

  lemma FullRoundTracks(g: Graph, digest: string, run: Outcomes, c: Cores, t: Table,
                        calls: map<string, nat>, steps: map<string, PlanStep>)
    requires Stratified(g) && Serving(g, digest, t, calls, steps) && c.Keys == g.Keys
    requires OnTrack(g, run, CoresOf(g, t)) && NothingToUnblock(g, CoresOf(g, t))
    ensures Tracking(g, digest, run, t, calls, steps)
    ensures Unblock(g, AttemptAll(run, c, WithStatus(c, Ready))) == Round(g, run, c)
  {
    hide Serving, OnTrack, NothingToUnblock, Unblock, AttemptAll, Stratified;
    ServingJobs(g, digest, t, calls, steps);
  }

  lemma EmptyRoundChangesNothing(g: Graph, run: Outcomes, c: Cores)
    requires c.Keys == g.Keys && Resumable(g, c) && StepsOf([]) == WithStatus(c, Ready)
    ensures WithStatus(c, Ready) == {} && Round(g, run, c) == c
  {
    assert AttemptAll(run, c, {}) == c;
    assert Unblock(g, c) == c;
  }

  // ------------------------------------------------------------------ dispatch

  function NewJob(digest: string, s: PlanStep): Job {
    Job(JobId(s.key), s.key, IdempotencyKey(digest, s.key),
        if s.dependencies == [] then Ready else Blocked, 0, MAX_ATTEMPTS,
        None, None, "", None, s.dependencies)
  }

  ghost function DispatchOps(digest: string, ss: seq<PlanStep>): (ops: seq<Op>)
    ensures |ops| == |ss|
  {
    seq(|ss|, i requires 0 <= i < |ss| => Add(NewJob(digest, ss[i])))
  }

  /** The known steps after dispatching `ss`. */
  function KnownSteps(known: map<string, PlanStep>, ss: seq<PlanStep>): map<string, PlanStep> {
    if ss == [] then known
    else KnownSteps(known, ss[..|ss| - 1])[ss[|ss| - 1].key := ss[|ss| - 1]]
  }

  lemma {:induction false} KnowsItsSteps(known: map<string, PlanStep>, ss: seq<PlanStep>)
    ensures forall k | k in GraphOf(ss) ::
      k in KnownSteps(known, ss) && KnownSteps(known, ss)[k].key == k
  {
    if ss != [] {
      KnowsItsSteps(known, ss[..|ss| - 1]);
    }
  }

  lemma DispatchNext(t: Table, digest: string, ss: seq<PlanStep>, i: nat, ttl: int,
                     known: map<string, PlanStep>)
    requires t.Valid() && i < |ss|
    ensures Jobs.Run(t, DispatchOps(digest, ss)[..i + 1], ttl)
         == After(Jobs.Run(t, DispatchOps(digest, ss)[..i], ttl), Add(NewJob(digest, ss[i])), ttl)
    ensures KnownSteps(known, ss[..i + 1]) == KnownSteps(known, ss[..i])[ss[i].key := ss[i]]
  {
    var ops := DispatchOps(digest, ss);
    assert ops[..i + 1] == ops[..i] + [ops[i]];
    RunOneMore(t, ops[..i], ops[i], ttl);
    assert ss[..i + 1][..i] == ss[..i];
  }

  lemma {:induction false} RunOneMore(t: Table, ops: seq<Op>, op: Op, ttl: int)
    requires t.Valid()
    ensures Jobs.Run(t, ops + [op], ttl) == After(Jobs.Run(t, ops, ttl), op, ttl)
    decreases |ops|
  {
    if ops == [] {
      assert ops + [op] == [op];
    } else {
      assert (ops + [op])[1..] == ops[1..] + [op];
      RunOneMore(After(t, ops[0], ttl), ops[1..], op, ttl);
    }
  }

  lemma {:induction false} WithKeyFinds(t: Table, key: string, n: nat)
    requires t.Valid() && n <= |t.ids|
    ensures t.WithKey(key, n).None?
       <==> forall i | n <= i < |t.ids| :: t.jobs[t.ids[i]].idempotencyKey != key
    decreases |t.ids| - n
  {
    if n < |t.ids| {
      WithKeyFinds(t, key, n + 1);
    }
  }

  /** Adding a job of a step the plan table already has changes nothing. */
  lemma AddKnown(g: Graph, digest: string, t: Table, s: PlanStep, ttl: int)
    requires PlanTable(g, digest, t) && s.key in g
    ensures After(t, Add(NewJob(digest, s)), ttl) == t
  {
    WithKeyFinds(t, IdempotencyKey(digest, s.key), 0);
    var i :| 0 <= i < |t.ids| && t.ids[i] == JobId(s.key);
  }

  lemma AddNewStores(g: Graph, digest: string, t: Table, s: PlanStep, ttl: int)
    requires PlanTable(g, digest, t) && s.key !in g
    ensures After(t, Add(NewJob(digest, s)), ttl)
         == t.Put(NewJob(digest, s).id, NewJob(digest, s))
  {
    var j := NewJob(digest, s);
    WithKeyFinds(t, j.idempotencyKey, 0);
    forall i | 0 <= i < |t.ids| ensures t.jobs[t.ids[i]].idempotencyKey != j.idempotencyKey {
      IdempotencyKeysDiffer(digest, s.key, t.jobs[t.ids[i]].stepKey);
    }
  }

  lemma PutNew(g: Graph, digest: string, t: Table, s: PlanStep)
    requires PlanTable(g, digest, t) && s.key !in g
    ensures PlanTable(g[s.key := s.dependencies], digest,
                      t.Put(NewJob(digest, s).id, NewJob(digest, s)))
    ensures forall k | k in g :: JobId(k) != JobId(s.key)
  {
    hide Table.Valid;
    forall k | k in g ensures JobId(k) != JobId(s.key) {
      JobIdsDiffer(k, s.key);
    }
  }

  /** Adding the job of a new step extends the plan table by that step. */
  lemma AddNew(g: Graph, digest: string, t: Table, s: PlanStep, ttl: int)
    requires PlanTable(g, digest, t) && s.key !in g
    ensures
      var g', t' := g[s.key := s.dependencies], After(t, Add(NewJob(digest, s)), ttl);
      && PlanTable(g', digest, t')
      && CoresOf(g', t') == CoresOf(g, t)[s.key := CoreOf(NewJob(digest, s))]
  {
    hide Table.Valid, After, PlanTable, JobId;
    AddNewStores(g, digest, t, s, ttl);
    PutNew(g, digest, t, s);
    PlanTableJobs(g, digest, t);
    assert NewJob(digest, s).id == JobId(s.key);
  }

  lemma PlanTableValid(g: Graph, digest: string, t: Table)
    requires PlanTable(g, digest, t)
    ensures t.Valid()
  {
  }

  /** Dispatch is idempotent: once the plan's jobs are stored, dispatching any of
      its steps again leaves the table as it is, whatever has happened to them. */
  lemma {:induction false} DispatchAgain(g: Graph, digest: string, t: Table, ss: seq<PlanStep>,
                                         ttl: int)
    requires PlanTable(g, digest, t) && forall s | s in ss :: s.key in g
    ensures Jobs.Run(t, DispatchOps(digest, ss), ttl) == t
  {
    hide NewJob, PlanTable, After, Table.Valid;
    PlanTableValid(g, digest, t);
    if ss != [] {
      var front, last := ss[..|ss| - 1], ss[|ss| - 1];
      DispatchAgain(g, digest, t, front, ttl);
      assert DispatchOps(digest, ss) == DispatchOps(digest, front) + [Add(NewJob(digest, last))];
      RunOneMore(t, DispatchOps(digest, front), Add(NewJob(digest, last)), ttl);
      AddKnown(g, digest, t, last, ttl);
    }
  }

  lemma EmptyPlanTable(digest: string)
    ensures PlanTable(map[], digest, Table([], map[]))
    ensures CoresOf(map[], Table([], map[])) == InitialCores(map[]) == map[]
  {
  }

  lemma OneMoreStep(ss: seq<PlanStep>, digest: string)
    requires UniqueKeys(ss) && ss != []
    ensures
      var front, last := ss[..|ss| - 1], ss[|ss| - 1];
      && UniqueKeys(front) && last.key !in GraphOf(front)
      && GraphOf(ss) == GraphOf(front)[last.key := last.dependencies]
      && DispatchOps(digest, ss) == DispatchOps(digest, front) + [Add(NewJob(digest, last))]
  {
  }

  lemma OneMoreInitial(g: Graph, s: PlanStep, digest: string)
    requires s.key !in g
    ensures InitialCores(g[s.key := s.dependencies])
         == InitialCores(g)[s.key := CoreOf(NewJob(digest, s))]
  {
  }

  /** Dispatch into an empty store: exactly the plan's jobs, at round zero. */
  lemma {:induction false} DispatchFresh(digest: string, ss: seq<PlanStep>, ttl: int)
    requires UniqueKeys(ss)
    ensures Table([], map[]).Valid()
    ensures
      var t, g := Jobs.Run(Table([], map[]), DispatchOps(digest, ss), ttl), GraphOf(ss);
      PlanTable(g, digest, t) && CoresOf(g, t) == InitialCores(g)
  {
    hide Table.Valid, PlanTable, After, CoresOf, InitialCores, UniqueKeys;
    EmptyPlanTable(digest);
    if ss != [] {
      var front, last := ss[..|ss| - 1], ss[|ss| - 1];
      OneMoreStep(ss, digest);
      DispatchFresh(digest, front, ttl);
      RunOneMore(Table([], map[]), DispatchOps(digest, front), Add(NewJob(digest, last)), ttl);
      AddNew(GraphOf(front), digest, Jobs.Run(Table([], map[]), DispatchOps(digest, front), ttl),
             last, ttl);
      OneMoreInitial(GraphOf(front), last, digest);
    }
  }
}
