/** The in-memory job store: leased jobs, insertion-ordered, one atomic step per
    public method. `Apply` says what each operation does to the table; the class
    performs it on its fields, and the lemmas below reason about whole histories
    of operations by any number of owners. */
module Jobs {
  import opened Wrappers

  datatype JobStatus =
    Pending | Blocked | Ready | Leased | Running | Succeeded | Failed | Skipped | PolicyDenied

  datatype FailureClass =
    InputInvalid | OutOfScope | NotApproved | WorkerUnavailable | Timeout | ParseFailed

  predicate Retryable(f: FailureClass) {
    f == WorkerUnavailable || f == Timeout
  }

  predicate PolicyFailure(f: FailureClass) {
    f == OutOfScope || f == NotApproved
  }

  /** `leaseExpiresAt` and all clocks are ticks of one time line. */
  datatype Job = Job(
    id: string,
    stepKey: string,
    idempotencyKey: string,
    status: JobStatus,
    attempt: nat,
    maxAttempts: int,
    leaseOwner: Option<string>,
    leaseExpiresAt: Option<int>,
    resultDigest: string,
    failureClass: Option<FailureClass>,
    dependencies: seq<string>)

  datatype JobError = JobNotFound | LeaseRefused

  predicate StaleLease(j: Job, now: int) {
    j.status == Leased && j.leaseExpiresAt.Some? && j.leaseExpiresAt.value <= now
  }

  predicate CanLease(j: Job, now: int) {
    j.status == Ready || StaleLease(j, now)
  }

  // ------------------------------------------------------- single-job updates

  function LeasedJob(j: Job, owner: string, now: int, ttl: int): Job {
    j.(status := Leased, leaseOwner := Some(owner), leaseExpiresAt := Some(now + ttl),
       attempt := j.attempt + 1)
  }

  function CompletedJob(j: Job, digest: string): Job {
    j.(status := Succeeded, resultDigest := digest)
  }

  function FailedJob(j: Job, f: FailureClass): Job {
    j.(status := if PolicyFailure(f) then PolicyDenied else Failed, failureClass := Some(f))
  }

  function RequeuedJob(j: Job): Job {
    j.(status := Ready, leaseOwner := None, leaseExpiresAt := None, failureClass := None)
  }

  function SkippedJob(j: Job): Job {
    j.(status := Skipped, leaseOwner := None, leaseExpiresAt := None)
  }

  // ------------------------------------------------------------------ tables

  /** An insertion-ordered dictionary from job id to job. */
  datatype Table = Table(ids: seq<string>, jobs: map<string, Job>) {
    ghost predicate Valid() {
      && jobs.Keys == (set id | id in ids)
      && (forall i, j | 0 <= i < j < |ids| :: ids[i] != ids[j])
      && (forall id | id in jobs :: jobs[id].id == id)
    }

    function Put(id: string, j: Job): (t: Table)
      ensures Valid() && j.id == id ==> t.Valid()
    {
      Table(if id in jobs then ids else ids + [id], jobs[id := j])
    }

    /** The first stored job, in insertion order, with this idempotency key. */
    ghost function WithKey(key: string, n: nat): Option<Job>
      requires n <= |ids| && forall id | id in ids :: id in jobs
      decreases |ids| - n
    {
      if n == |ids| then None
      else if jobs[ids[n]].idempotencyKey == key then Some(jobs[ids[n]])
      else WithKey(key, n + 1)
    }
  }

  datatype Op =
    | Add(job: Job)
    | MarkReady(id: string)
    | Lease(id: string, owner: string, now: int)
    | Renew(id: string, owner: string, now: int)
    | Complete(id: string, digest: string)
    | Fail(id: string, failure: FailureClass)
    | Requeue(id: string)
    | Skip(id: string)

  ghost function Updated(t: Table, id: string, j: Job): Result<(Table, Job), JobError> {
    Success((t.Put(id, j), j))
  }

  /** The new table and the returned job, or the error that leaves the table as
      it was. */
  ghost function Apply(t: Table, op: Op, ttl: int): Result<(Table, Job), JobError>
    requires t.Valid()
  {
    match op
    case Add(job) =>
      (match t.WithKey(job.idempotencyKey, 0)
       case Some(existing) => Success((t, existing))
       case None => Updated(t, job.id, job))
    case MarkReady(id) =>
      if id !in t.jobs then Failure(JobNotFound)
      else Updated(t, id, t.jobs[id].(status := Ready))
    case Lease(id, owner, now) =>
      if id !in t.jobs then Failure(JobNotFound)
      else if !CanLease(t.jobs[id], now) then Failure(LeaseRefused)
      else Updated(t, id, LeasedJob(t.jobs[id], owner, now, ttl))
    case Renew(id, owner, now) =>
      if id !in t.jobs then Failure(JobNotFound)
      else if t.jobs[id].leaseOwner != Some(owner) then Failure(LeaseRefused)
      else Updated(t, id, t.jobs[id].(leaseExpiresAt := Some(now + ttl)))
    case Complete(id, digest) =>
      if id !in t.jobs then Failure(JobNotFound)
      else Updated(t, id, CompletedJob(t.jobs[id], digest))
    case Fail(id, f) =>
      if id !in t.jobs then Failure(JobNotFound)
      else Updated(t, id, FailedJob(t.jobs[id], f))
    case Requeue(id) =>
      if id !in t.jobs then Failure(JobNotFound)
      else Updated(t, id, RequeuedJob(t.jobs[id]))
    case Skip(id) =>
      if id !in t.jobs then Failure(JobNotFound)
      else Updated(t, id, SkippedJob(t.jobs[id]))
  }

  ghost function After(t: Table, op: Op, ttl: int): (t': Table)
    requires t.Valid()
    ensures t'.Valid()
  {
    match Apply(t, op, ttl)
    case Success(p) => p.0
    case Failure(_) => t
  }

  /** A call that did `op`: it answered `r` and took the table from t to t'. */
  ghost predicate Did(t: Table, op: Op, ttl: int, t': Table, r: Result<Job, JobError>)
    requires t.Valid()
  {
    match Apply(t, op, ttl)
    case Success(p) => r == Success(p.1) && t' == p.0
    case Failure(e) => r == Failure(e) && t' == t
  }

  // ------------------------------------------------------------- the job store

  predicate LoopStep(key: string) {
    "loop:" <= key
  }

  /** The jobs among the first n that can be leased and belong to the wanted
      group, in insertion order. */
  ghost function Group(t: Table, now: int, loops: bool, n: nat): seq<Job>
    requires t.Valid() && n <= |t.ids|
  {
    if n == 0 then []
    else
      var j := t.jobs[t.ids[n - 1]];
      Group(t, now, loops, n - 1)
        + if CanLease(j, now) && LoopStep(j.stepKey) == loops then [j] else []
  }

  /** Reasoning-loop jobs first, insertion order within each group. */
  ghost function LeaseableJobs(t: Table, now: int): seq<Job>
    requires t.Valid()
  {
    Group(t, now, true, |t.ids|) + Group(t, now, false, |t.ids|)
  }

  ghost predicate Distinct(js: seq<Job>) {
    forall i, k | 0 <= i < k < |js| :: js[i].id != js[k].id
  }

  lemma {:induction false} GroupMembers(t: Table, now: int, loops: bool, n: nat)
    requires t.Valid() && n <= |t.ids|
    ensures Distinct(Group(t, now, loops, n))
    ensures forall j :: j in Group(t, now, loops, n) <==>
      && j.id in t.ids[..n] && j == t.jobs[j.id]
      && CanLease(j, now) && LoopStep(j.stepKey) == loops
  {
    hide CanLease, LoopStep;
    if n > 0 {
      GroupMembers(t, now, loops, n - 1);
      assert t.ids[..n] == t.ids[..n - 1] + [t.ids[n - 1]];
    }
  }

  /** The leaseable jobs are listed once each, and nothing else is listed. */
  lemma LeaseableListsEachOnce(t: Table, now: int)
    requires t.Valid()
    ensures Distinct(LeaseableJobs(t, now))
    ensures forall j :: j in LeaseableJobs(t, now) <==>
      j.id in t.jobs && j == t.jobs[j.id] && CanLease(j, now)
  {
    GroupMembers(t, now, true, |t.ids|);
    GroupMembers(t, now, false, |t.ids|);
    assert t.ids[..|t.ids|] == t.ids;
  }

  /** Job a was stored before job b. */
  ghost predicate StoredBefore(t: Table, n: nat, a: Job, b: Job)
    requires n <= |t.ids|
  {
    exists p, q | 0 <= p < q < n :: t.ids[p] == a.id && t.ids[q] == b.id
  }

  lemma GroupGrows(t: Table, now: int, loops: bool, n: nat)
    requires t.Valid() && 0 < n <= |t.ids|
    ensures
      var before, after, j := Group(t, now, loops, n - 1), Group(t, now, loops, n), t.jobs[t.ids[n - 1]];
      (after == before || after == before + [j]) && j.id == t.ids[n - 1]
  {
  }

  lemma GroupElement(t: Table, now: int, loops: bool, n: nat, i: nat)
    requires t.Valid() && n <= |t.ids| && i < |Group(t, now, loops, n)|
    ensures
      var j := Group(t, now, loops, n)[i];
      && (exists p :: 0 <= p < n && t.ids[p] == j.id)
      && ("loop:" <= j.stepKey <==> loops)
      && (j.status == Ready
          || (j.status == Leased && j.leaseExpiresAt.Some? && j.leaseExpiresAt.value <= now))
  {
    hide Table.Valid;
    GroupMembers(t, now, loops, n);
    assert Group(t, now, loops, n)[i] in Group(t, now, loops, n);
  }

  lemma {:induction false} GroupInOrder(t: Table, now: int, loops: bool, n: nat, i: nat, k: nat)
    requires t.Valid() && n <= |t.ids| && i < k < |Group(t, now, loops, n)|
    ensures StoredBefore(t, n, Group(t, now, loops, n)[i], Group(t, now, loops, n)[k])
  {
    NoGroup(t, now, loops);
    hide Group, Table.Valid;
    var before := Group(t, now, loops, n - 1);
    GroupGrows(t, now, loops, n);
    if k < |before| {
      GroupInOrder(t, now, loops, n - 1, i, k);
    } else {
      GroupElement(t, now, loops, n - 1, i);
    }
  }

  lemma NoGroup(t: Table, now: int, loops: bool)
    requires t.Valid()
    ensures Group(t, now, loops, 0) == []
  {
  }

  /** What is listed, and in what order: jobs that are READY or whose lease has run
      out; those of reasoning loops first, and either kind as it was stored. */
  lemma LeaseableInOrder(t: Table, now: int, i: nat, k: nat)
    requires t.Valid() && i < k < |LeaseableJobs(t, now)|
    ensures
      var a, b := LeaseableJobs(t, now)[i], LeaseableJobs(t, now)[k];
      && ("loop:" <= b.stepKey ==> "loop:" <= a.stepKey)
      && (("loop:" <= a.stepKey <==> "loop:" <= b.stepKey) ==> StoredBefore(t, |t.ids|, a, b))
      && (a.status == Ready
          || (a.status == Leased && a.leaseExpiresAt.Some? && a.leaseExpiresAt.value <= now))
  {
    hide Group, Table.Valid, StoredBefore;
    var n, m := |t.ids|, |Group(t, now, true, |t.ids|)|;
    if k < m {
      GroupInOrder(t, now, true, n, i, k);
      GroupElement(t, now, true, n, i);
      GroupElement(t, now, true, n, k);
    } else if i < m {
      GroupElement(t, now, true, n, i);
      GroupElement(t, now, false, n, k - m);
    } else {
      GroupInOrder(t, now, false, n, i - m, k - m);
      GroupElement(t, now, false, n, i - m);
      GroupElement(t, now, false, n, k - m);
    }
  }

  class MemoryJobStore {
    var ids: seq<string>
    var jobs: map<string, Job>
    const ttl: int

    ghost function View(): Table
      reads this
    {
      Table(ids, jobs)
    }

    ghost predicate Valid()
      reads this
    {
      View().Valid()
    }

    constructor (leaseTtl: int)
      ensures Valid() && View() == Table([], map[]) && ttl == leaseTtl
    {
      ids, jobs, ttl := [], map[], leaseTtl;
    }

    method AddJob(job: Job) returns (stored: Job)
      requires Valid()
      modifies this
      ensures Valid() && Did(old(View()), Add(job), ttl, View(), Success(stored))
    {
      var i := 0;
      while i < |ids|
        invariant 0 <= i <= |ids|
        invariant View().WithKey(job.idempotencyKey, 0) == View().WithKey(job.idempotencyKey, i)
      {
        var existing := jobs[ids[i]];
        if existing.idempotencyKey == job.idempotencyKey {
          return existing;
        }
        i := i + 1;
      }
      Write(job.id, job);
      return job;
    }

    method Get(id: string) returns (j: Option<Job>)
      ensures j == if id in jobs then Some(jobs[id]) else None
    {
      j := if id in jobs then Some(jobs[id]) else None;
    }

    method All() returns (js: seq<Job>)
      requires Valid()
      ensures |js| == |ids| && forall i | 0 <= i < |ids| :: js[i] == jobs[ids[i]]
    {
      js := [];
      for i := 0 to |ids|
        invariant |js| == i && forall k | 0 <= k < i :: js[k] == jobs[ids[k]]
      {
        js := js + [jobs[ids[i]]];
      }
    }

    /** Dictionary assignment: an existing key keeps its place. */
    method Write(id: string, j: Job)
      requires Valid() && j.id == id
      modifies this
      ensures Valid() && View() == old(View()).Put(id, j)
    {
      if id !in jobs {
        ids := ids + [id];
      }
      jobs := jobs[id := j];
    }

    method SetReady(id: string) returns (r: Result<Job, JobError>)
      requires Valid()
      modifies this
      ensures Valid() && Did(old(View()), MarkReady(id), ttl, View(), r)
    {
      if id !in jobs {
        return Failure(JobNotFound);
      }
      var j := jobs[id].(status := Ready);
      Write(id, j);
      return Success(j);
    }

    method TakeLease(id: string, owner: string, now: int) returns (r: Result<Job, JobError>)
      requires Valid()
      modifies this
      ensures Valid() && Did(old(View()), Lease(id, owner, now), ttl, View(), r)
    {
      if id !in jobs {
        return Failure(JobNotFound);
      }
      var j := jobs[id];
      var stale := j.status == Leased && j.leaseExpiresAt.Some? && j.leaseExpiresAt.value <= now;
      if j.status != Ready && !stale {
        return Failure(LeaseRefused);
      }
      j := j.(status := Leased, leaseOwner := Some(owner), leaseExpiresAt := Some(now + ttl),
              attempt := j.attempt + 1);
      Write(id, j);
      return Success(j);
    }

    method RenewLease(id: string, owner: string, now: int) returns (r: Result<Job, JobError>)
      requires Valid()
      modifies this
      ensures Valid() && Did(old(View()), Renew(id, owner, now), ttl, View(), r)
    {
      if id !in jobs {
        return Failure(JobNotFound);
      }
      var j := jobs[id];
      if j.leaseOwner != Some(owner) {
        return Failure(LeaseRefused);
      }
      j := j.(leaseExpiresAt := Some(now + ttl));
      Write(id, j);
      return Success(j);
    }

    method CompleteJob(id: string, digest: string) returns (r: Result<Job, JobError>)
      requires Valid()
      modifies this
      ensures Valid() && Did(old(View()), Complete(id, digest), ttl, View(), r)
    {
      if id !in jobs {
        return Failure(JobNotFound);
      }
      var j := jobs[id].(status := Succeeded, resultDigest := digest);
      Write(id, j);
      return Success(j);
    }

    method FailJob(id: string, f: FailureClass) returns (r: Result<Job, JobError>)
      requires Valid()
      modifies this
      ensures Valid() && Did(old(View()), Fail(id, f), ttl, View(), r)
    {
      if id !in jobs {
        return Failure(JobNotFound);
      }
      var status := if PolicyFailure(f) then PolicyDenied else Failed;
      var j := jobs[id].(status := status, failureClass := Some(f));
      Write(id, j);
      return Success(j);
    }

    method RequeueJob(id: string) returns (r: Result<Job, JobError>)
      requires Valid()
      modifies this
      ensures Valid() && Did(old(View()), Requeue(id), ttl, View(), r)
    {
      if id !in jobs {
        return Failure(JobNotFound);
      }
      var j := jobs[id].(status := Ready, leaseOwner := None, leaseExpiresAt := None,
                         failureClass := None);
      Write(id, j);
      return Success(j);
    }

    method SkipJob(id: string) returns (r: Result<Job, JobError>)
      requires Valid()
      modifies this
      ensures Valid() && Did(old(View()), Skip(id), ttl, View(), r)
    {
      if id !in jobs {
        return Failure(JobNotFound);
      }
      var j := jobs[id].(status := Skipped, leaseOwner := None, leaseExpiresAt := None);
      Write(id, j);
      return Success(j);
    }

    method Leaseable(now: int) returns (js: seq<Job>)
      requires Valid()
      ensures js == LeaseableJobs(View(), now)
    {
      var loops, ordinary := [], [];
      for i := 0 to |ids|
        invariant loops == Group(View(), now, true, i)
        invariant ordinary == Group(View(), now, false, i)
      {
        var j := jobs[ids[i]];
        var stale := j.status == Leased && j.leaseExpiresAt.Some? && j.leaseExpiresAt.value <= now;
        if j.status == Ready || stale {
          if "loop:" <= j.stepKey {
            loops := loops + [j];
          } else {
            ordinary := ordinary + [j];
          }
        }
      }
      return loops + ordinary;
    }
  }

  // -------------------------------------------------------- histories of calls

  ghost function Run(t: Table, ops: seq<Op>, ttl: int): (t': Table)
    requires t.Valid()
    ensures t'.Valid()
    decreases |ops|
  {
    if ops == [] then t else Run(After(t, ops[0], ttl), ops[1..], ttl)
  }

  /** The call stored `job` under an id that may already be taken. */
  ghost predicate Replaces(t: Table, op: Op, id: string)
    requires t.Valid()
  {
    op.Add? && op.job.id == id && t.WithKey(op.job.idempotencyKey, 0).None?
  }

  /** The calls that hand a job back without its lease having run out. */
  ghost predicate Releases(t: Table, op: Op, id: string)
    requires t.Valid()
  {
    (op.MarkReady? && op.id == id) || (op.Requeue? && op.id == id) || Replaces(t, op, id)
  }

  ghost predicate NeverReleased(t: Table, ops: seq<Op>, ttl: int, id: string)
    requires t.Valid()
    decreases |ops|
  {
    ops != [] ==>
      && !Releases(t, ops[0], id)
      && NeverReleased(After(t, ops[0], ttl), ops[1..], ttl, id)
  }

  ghost predicate NeverReplaced(t: Table, ops: seq<Op>, ttl: int, id: string)
    requires t.Valid()
    decreases |ops|
  {
    ops != [] ==>
      && !Replaces(t, ops[0], id)
      && NeverReplaced(After(t, ops[0], ttl), ops[1..], ttl, id)
  }

  ghost predicate LeaseWon(t: Table, op: Op, ttl: int, id: string)
    requires t.Valid()
  {
    op.Lease? && op.id == id && Apply(t, op, ttl).Success?
  }

  ghost function LeasesWon(t: Table, ops: seq<Op>, ttl: int, id: string): nat
    requires t.Valid()
    decreases |ops|
  {
    if ops == [] then 0
    else
      var rest := LeasesWon(After(t, ops[0], ttl), ops[1..], ttl, id);
      if LeaseWon(t, ops[0], ttl, id) then rest + 1 else rest
  }

  /** The clocks at which the job was leased or its lease renewed. */
  ghost function Holds(t: Table, ops: seq<Op>, ttl: int, id: string): set<int>
    requires t.Valid()
    decreases |ops|
  {
    if ops == [] then {}
    else
      (if HoldsLease(t, ops[0], ttl, id) then {ops[0].now} else {})
      + Holds(After(t, ops[0], ttl), ops[1..], ttl, id)
  }

  /** Clock readings never go back, starting from `clock`. */
  ghost predicate ClockRuns(clock: int, ops: seq<Op>)
    decreases |ops|
  {
    ops != [] ==>
      if ops[0].Lease? || ops[0].Renew? then
        clock <= ops[0].now && ClockRuns(ops[0].now, ops[1..])
      else ClockRuns(clock, ops[1..])
  }

  /** Jobs that only a release can make leaseable again. */
  ghost predicate Closed(j: Job) {
    j.status != Ready && j.status != Leased
  }

  lemma ClosedStep(t: Table, op: Op, ttl: int, id: string)
    requires t.Valid() && id in t.jobs && Closed(t.jobs[id]) && !Releases(t, op, id)
    ensures id in After(t, op, ttl).jobs && Closed(After(t, op, ttl).jobs[id])
  {
    match op
    case Add(job) =>
    case _ =>
  }

  lemma {:induction false} ClosedStaysClosed(t: Table, ops: seq<Op>, ttl: int, id: string)
    requires t.Valid() && id in t.jobs && Closed(t.jobs[id])
    requires NeverReleased(t, ops, ttl, id)
    ensures id in Run(t, ops, ttl).jobs && Closed(Run(t, ops, ttl).jobs[id])
    decreases |ops|
  {
    if ops != [] {
      ClosedStep(t, ops[0], ttl, id);
      ClosedStaysClosed(After(t, ops[0], ttl), ops[1..], ttl, id);
    }
  }

  ghost predicate HoldsLease(t: Table, op: Op, ttl: int, id: string)
    requires t.Valid()
  {
    (op.Lease? || op.Renew?) && op.id == id && Apply(t, op, ttl).Success?
  }

  lemma LeasedStep(t: Table, op: Op, ttl: int, id: string, since: int)
    requires t.Valid() && id in t.jobs && t.jobs[id].status == Leased
    requires t.jobs[id].leaseExpiresAt == Some(since + ttl) && !Releases(t, op, id)
    ensures id in After(t, op, ttl).jobs
    ensures var j := After(t, op, ttl).jobs[id];
      Closed(j) || (j.status == Leased && j.leaseExpiresAt ==
                    Some((if HoldsLease(t, op, ttl, id) then op.now else since) + ttl))
  {
    match op
    case Add(job) =>
    case _ =>
  }

  /** Exclusion. Take any history after a lease taken or renewed at `since` in
      which the job is never released. If a lease of the job then succeeds at
      `now`, the lease of `since` and every lease and renewal in between had run
      out by `now`. */
  lemma {:induction false} LeaseExclusion(t: Table, ops: seq<Op>, ttl: int, id: string,
                                          since: int, clock: int, owner: string, now: int)
    requires t.Valid() && id in t.jobs && t.jobs[id].status == Leased
    requires t.jobs[id].leaseExpiresAt == Some(since + ttl) && since <= clock
    requires ClockRuns(clock, ops + [Lease(id, owner, now)])
    requires NeverReleased(t, ops, ttl, id)
    requires LeaseWon(Run(t, ops, ttl), Lease(id, owner, now), ttl, id)
    ensures since + ttl <= now
    ensures forall u | u in Holds(t, ops, ttl, id) :: u + ttl <= now
    decreases |ops|
  {
    hide Apply, After, Releases, CanLease;
    if ops == [] {
      LeaseAfterExpiry(t, ttl, id, since, owner, now);
    } else {
      var op, t' := ops[0], After(t, ops[0], ttl);
      assert (ops + [Lease(id, owner, now)])[1..] == ops[1..] + [Lease(id, owner, now)];
      LeasedStep(t, op, ttl, id, since);
      if Closed(t'.jobs[id]) {
        ClosedStaysClosed(t', ops[1..], ttl, id);
        ClosedCannotBeLeased(Run(t, ops, ttl), ttl, id, owner, now);
        assert false;
      } else {
        LeaseExclusion(t', ops[1..], ttl, id,
                       if HoldsLease(t, op, ttl, id) then op.now else since,
                       if op.Lease? || op.Renew? then op.now else clock, owner, now);
      }
    }
  }

  lemma LeaseAfterExpiry(t: Table, ttl: int, id: string, since: int, owner: string, now: int)
    requires t.Valid() && id in t.jobs && t.jobs[id].status == Leased
    requires t.jobs[id].leaseExpiresAt == Some(since + ttl)
    requires LeaseWon(t, Lease(id, owner, now), ttl, id)
    ensures since + ttl <= now
  {
  }

  lemma ClosedCannotBeLeased(t: Table, ttl: int, id: string, owner: string, now: int)
    requires t.Valid() && id in t.jobs && Closed(t.jobs[id])
    ensures !LeaseWon(t, Lease(id, owner, now), ttl, id)
  {
  }

  /** Who holds a job and since when. */
  datatype Tenure = Tenure(owner: string, since: int)

  /** The holder after a call: a lease is won once the tenure is a ttl old, by anyone,
      and only the holder renews. */
  function NextTenure(h: Tenure, op: Op, ttl: int, id: string): Tenure {
    match op
    case Lease(i, owner, now) => if i == id && h.since + ttl <= now then Tenure(owner, now) else h
    case Renew(i, owner, now) => if i == id && owner == h.owner then Tenure(owner, now) else h
    case _ => h
  }

  function TenureAfter(h: Tenure, ops: seq<Op>, ttl: int, id: string): Tenure
    decreases |ops|
  {
    if ops == [] then h else TenureAfter(NextTenure(h, ops[0], ttl, id), ops[1..], ttl, id)
  }

  /** The calls that settle the job or hand it back. */
  ghost predicate Ends(t: Table, op: Op, id: string)
    requires t.Valid()
  {
    || Releases(t, op, id)
    || ((op.Complete? || op.Fail? || op.Skip?) && op.id == id)
  }

  ghost predicate NeverEnded(t: Table, ops: seq<Op>, ttl: int, id: string)
    requires t.Valid()
    decreases |ops|
  {
    ops != [] ==>
      && !Ends(t, ops[0], id)
      && NeverEnded(After(t, ops[0], ttl), ops[1..], ttl, id)
  }

  ghost predicate HeldAs(t: Table, id: string, h: Tenure, ttl: int) {
    && id in t.jobs && t.jobs[id].status == Leased
    && t.jobs[id].leaseOwner == Some(h.owner) && t.jobs[id].leaseExpiresAt == Some(h.since + ttl)
  }

  lemma TenureStep(t: Table, op: Op, ttl: int, id: string, h: Tenure)
    requires t.Valid() && HeldAs(t, id, h, ttl) && !Ends(t, op, id)
    ensures HeldAs(After(t, op, ttl), id, NextTenure(h, op, ttl, id), ttl)
  {
    if op.Add? || op.id != id {
      hide NextTenure;
      OtherCall(t, op, ttl, id);
      SameTenure(h, op, ttl, id);
    } else {
      hide Releases, Table.Valid;
      assert op.Lease? || op.Renew? by {
        EndsIs(t, op, id);
      }
    }
  }

  lemma EndsIs(t: Table, op: Op, id: string)
    requires t.Valid() && !Ends(t, op, id) && !op.Add? && op.id == id
    ensures op.Lease? || op.Renew?
  {
  }

  lemma SameTenure(h: Tenure, op: Op, ttl: int, id: string)
    requires op.Add? || op.id != id
    ensures NextTenure(h, op, ttl, id) == h
  {
  }

  /** A call on another job. */
  lemma OtherCall(t: Table, op: Op, ttl: int, id: string)
    requires t.Valid() && id in t.jobs && !Replaces(t, op, id) && (op.Add? || op.id != id)
    ensures id in After(t, op, ttl).jobs && After(t, op, ttl).jobs[id] == t.jobs[id]
  {
    match op
    case Add(job) =>
    case _ =>
  }

  /** Leases over any history in which the job is not settled or handed back: it can be
      leased by anyone from a ttl after the last tenure began on, and not before, and
      its lease is renewed by the last holder and nobody else. */
  lemma {:induction false} LeasesFollowTenure(t: Table, ops: seq<Op>, ttl: int, id: string, h: Tenure)
    requires t.Valid() && HeldAs(t, id, h, ttl) && NeverEnded(t, ops, ttl, id)
    ensures
      var t', last := Run(t, ops, ttl), TenureAfter(h, ops, ttl, id);
      && HeldAs(t', id, last, ttl)
      && (forall owner, now ::
            LeaseWon(t', Lease(id, owner, now), ttl, id) <==> last.since + ttl <= now)
      && (forall owner, now ::
            Apply(t', Renew(id, owner, now), ttl).Success? <==> owner == last.owner)
    decreases |ops|
  {
    hide After, Ends, NextTenure;
    if ops != [] {
      hide Apply, HeldAs;
      TenureStep(t, ops[0], ttl, id, h);
      LeasesFollowTenure(After(t, ops[0], ttl), ops[1..], ttl, id, NextTenure(h, ops[0], ttl, id));
    }
  }

  lemma AttemptStep(t: Table, op: Op, ttl: int, id: string)
    requires t.Valid() && id in t.jobs && !Replaces(t, op, id)
    ensures id in After(t, op, ttl).jobs
    ensures After(t, op, ttl).jobs[id].attempt
         == t.jobs[id].attempt + if LeaseWon(t, op, ttl, id) then 1 else 0
  {
    match op
    case Add(job) =>
    case _ =>
  }

  /** `attempt` counts exactly the leases won. */
  lemma {:induction false} AttemptCountsLeases(t: Table, ops: seq<Op>, ttl: int, id: string)
    requires t.Valid() && id in t.jobs && NeverReplaced(t, ops, ttl, id)
    ensures id in Run(t, ops, ttl).jobs
    ensures Run(t, ops, ttl).jobs[id].attempt
         == t.jobs[id].attempt + LeasesWon(t, ops, ttl, id)
    decreases |ops|
  {
    if ops != [] {
      AttemptStep(t, ops[0], ttl, id);
      AttemptCountsLeases(After(t, ops[0], ttl), ops[1..], ttl, id);
    }
  }

  // ------------------------------------------------------------ bounding leases

  /** The calls that handed the job back. */
  ghost function Released(t: Table, ops: seq<Op>, ttl: int, id: string): nat
    requires t.Valid()
    decreases |ops|
  {
    if ops == [] then 0
    else
      var rest := Released(After(t, ops[0], ttl), ops[1..], ttl, id);
      if Releases(t, ops[0], id) then rest + 1 else rest
  }

  /** The leases won from an owner whose lease had run out. */
  ghost function TakenOver(t: Table, ops: seq<Op>, ttl: int, id: string): nat
    requires t.Valid()
    decreases |ops|
  {
    if ops == [] then 0
    else
      var rest := TakenOver(After(t, ops[0], ttl), ops[1..], ttl, id);
      if LeaseWon(t, ops[0], ttl, id) && t.jobs[id].status == Leased then rest + 1 else rest
  }

  predicate ReadyIn(t: Table, id: string) {
    id in t.jobs && t.jobs[id].status == Ready
  }

  lemma ReadyStep(t: Table, op: Op, ttl: int, id: string)
    requires t.Valid() && id in t.jobs
    ensures id in After(t, op, ttl).jobs
    ensures LeaseWon(t, op, ttl, id) ==>
      !ReadyIn(After(t, op, ttl), id) && (ReadyIn(t, id) || t.jobs[id].status == Leased)
    ensures ReadyIn(After(t, op, ttl), id) ==> ReadyIn(t, id) || Releases(t, op, id)
  {
    match op
    case Add(job) =>
    case _ =>
  }

  /** Each lease of a job was either taken over from an owner that let it run out or
      is paid for by the job having been ready or handed back once. */
  lemma {:induction false} LeasesArePaidFor(t: Table, ops: seq<Op>, ttl: int, id: string)
    requires t.Valid() && id in t.jobs
    ensures LeasesWon(t, ops, ttl, id)
         <= (if ReadyIn(t, id) then 1 else 0) + Released(t, ops, ttl, id) + TakenOver(t, ops, ttl, id)
    decreases |ops|
  {
    hide After, Releases, LeaseWon;
    if ops != [] {
      ReadyStep(t, ops[0], ttl, id);
      LeasesArePaidFor(After(t, ops[0], ttl), ops[1..], ttl, id);
    }
  }

  /** A history as orchestrators make it, any number of them over one store. A job
      is marked ready only while it is blocked. It is requeued only by an execution
      whose leased copy stood below the limit, and by each execution at most once;
      the attempt number of the copy tells the executions of a job apart, and `used`
      holds those that have requeued it. Everything else may happen at any time. */
  ghost predicate Driven(t: Table, ops: seq<Op>, ttl: int, id: string, limit: int, used: set<nat>)
    requires t.Valid() && id in t.jobs
    decreases |ops|
  {
    ops != [] ==>
      var op, j := ops[0], t.jobs[id];
      && !Replaces(t, op, id)
      && (op.MarkReady? && op.id == id ==> j.status == Blocked)
      && (AttemptStep(t, op, ttl, id);
          if op.Requeue? && op.id == id then
            exists a: nat :: CanRequeue(a, j.attempt, limit, used)
              && Driven(After(t, op, ttl), ops[1..], ttl, id, limit, used + {a})
          else Driven(After(t, op, ttl), ops[1..], ttl, id, limit, used))
  }

  /** Some execution won the a-th lease, stood below the limit then, and has not
      requeued the job yet. */
  predicate CanRequeue(a: nat, attempt: nat, limit: int, used: set<nat>) {
    1 <= a <= attempt && a < limit && a !in used
  }

  /** What is left to make the job ready by: being ready or blocked now, and the
      executions below the limit that have not requeued it. */
  ghost predicate WithinLimit(j: Job, limit: int, used: set<nat>, taken: nat) {
    && (forall a | a in used :: 1 <= a < limit)
    && j.attempt + (if j.status == Ready || j.status == Blocked then 1 else 0)
       <= 1 + |used| + taken
  }

  lemma {:induction false} FewerThan(used: set<nat>, limit: int)
    requires limit >= 1 && forall a | a in used :: 1 <= a < limit
    ensures |used| <= limit - 1
    decreases limit
  {
    if limit == 1 {
      assert used == {};
    } else {
      FewerThan(used - {limit - 1}, limit - 1);
      if limit - 1 in used {
        assert |used - {limit - 1}| == |used| - 1;
      } else {
        assert used - {limit - 1} == used;
      }
    }
  }

  /** One call that does not requeue the job. */
  lemma LimitStep(t: Table, op: Op, ttl: int, id: string, limit: int, used: set<nat>, taken: nat)
    requires t.Valid() && id in t.jobs && WithinLimit(t.jobs[id], limit, used, taken)
    requires !Replaces(t, op, id) && !(op.Requeue? && op.id == id)
    requires op.MarkReady? && op.id == id ==> t.jobs[id].status == Blocked
    ensures id in After(t, op, ttl).jobs
    ensures WithinLimit(After(t, op, ttl).jobs[id], limit, used,
                        taken + if LeaseWon(t, op, ttl, id) && t.jobs[id].status == Leased then 1 else 0)
  {
    if op.Add? || op.id != id {
      hide WithinLimit;
      OtherCall(t, op, ttl, id);
    }
  }

  lemma RequeueStep(t: Table, op: Op, ttl: int, id: string, limit: int, used: set<nat>,
                    taken: nat, a: nat)
    requires t.Valid() && id in t.jobs && WithinLimit(t.jobs[id], limit, used, taken)
    requires op == Requeue(id) && CanRequeue(a, t.jobs[id].attempt, limit, used)
    ensures id in After(t, op, ttl).jobs
    ensures WithinLimit(After(t, op, ttl).jobs[id], limit, used + {a}, taken)
    ensures !LeaseWon(t, op, ttl, id)
  {
    assert |used + {a}| == |used| + 1;
  }

  /** The attempt limit over every driven history, by any number of owners: the
      limit, plus one for each lease taken over from an owner that let it run out. */
  lemma {:induction false} DrivenWithinLimit(t: Table, ops: seq<Op>, ttl: int, id: string,
                                             limit: int, used: set<nat>, taken: nat)
    requires t.Valid() && id in t.jobs && limit >= 1
    requires WithinLimit(t.jobs[id], limit, used, taken) && Driven(t, ops, ttl, id, limit, used)
    ensures id in Run(t, ops, ttl).jobs
    ensures Run(t, ops, ttl).jobs[id].attempt <= limit + taken + TakenOver(t, ops, ttl, id)
    decreases |ops|
  {
    hide After, Replaces, LeaseWon;
    if ops == [] {
      FewerThan(used, limit);
    } else {
      var op := ops[0];
      AttemptStep(t, op, ttl, id);
      if op.Requeue? && op.id == id {
        var a: nat :| CanRequeue(a, t.jobs[id].attempt, limit, used)
          && Driven(After(t, op, ttl), ops[1..], ttl, id, limit, used + {a});
        RequeueStep(t, op, ttl, id, limit, used, taken, a);
        DrivenWithinLimit(After(t, op, ttl), ops[1..], ttl, id, limit, used + {a}, taken);
      } else {
        LimitStep(t, op, ttl, id, limit, used, taken);
        DrivenWithinLimit(After(t, op, ttl), ops[1..], ttl, id, limit, used,
                          taken + if LeaseWon(t, op, ttl, id) && t.jobs[id].status == Leased
                                  then 1 else 0);
      }
    }
  }

  /** A job as dispatch leaves it is attempted at most maxAttempts times, plus once
      per takeover, in every driven history. */
  lemma AttemptsWithinLimit(t: Table, ops: seq<Op>, ttl: int, id: string)
    requires t.Valid() && id in t.jobs && t.jobs[id].attempt == 0 && t.jobs[id].maxAttempts >= 1
    requires Driven(t, ops, ttl, id, t.jobs[id].maxAttempts, {})
    ensures id in Run(t, ops, ttl).jobs
    ensures Run(t, ops, ttl).jobs[id].attempt
         <= t.jobs[id].maxAttempts + TakenOver(t, ops, ttl, id)
  {
    DrivenWithinLimit(t, ops, ttl, id, t.jobs[id].maxAttempts, {}, 0);
  }
}
