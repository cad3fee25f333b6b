/** What a plan's drain should come to, said without rounds, leases or workers:
    a step is attempted once all its dependencies have succeeded, up to
    MAX_ATTEMPTS times, until an attempt decides it. `Eval` is that recursive
    definition. The rest of the module relates it to rounds over a table of job
    cores: exactly, round by round (`AtRound`), and as an invariant that survives
    stopping anywhere (`OnTrack`). */
module DrainSpec {
  import opened Wrappers
  import opened Plans
  import opened Jobs

  const MAX_ATTEMPTS: nat := 3

  datatype StepOutcome = Produced(digest: string) | StepFailure(failure: FailureClass)

  /** The outcome of the n-th run (from 1) of a step. */
  type Outcomes = (string, nat) -> StepOutcome

  /** The part of a job the outcome of a plan is about. */
  datatype Core = Core(
    status: JobStatus, attempt: nat, resultDigest: string, failureClass: Option<FailureClass>)

  type Cores = map<string, Core>

  const BLOCKED_CORE := Core(Blocked, 0, "", None)

  function ReadyCore(attempt: nat): Core {
    Core(Ready, attempt, "", None)
  }

  // ------------------------------------------------------- recursive definition

  /** The decision of a step from attempt `a` on. */
  function Decide(run: Outcomes, k: string, a: nat): (c: Core)
    requires 1 <= a <= MAX_ATTEMPTS
    ensures c.status == Succeeded || c.status == Failed || c.status == PolicyDenied
    ensures a <= c.attempt <= MAX_ATTEMPTS
    decreases MAX_ATTEMPTS - a
  {
    match run(k, a)
    case Produced(digest) => Core(Succeeded, a, digest, None)
    case StepFailure(f) =>
      if PolicyFailure(f) then Core(PolicyDenied, a, "", Some(f))
      else if Retryable(f) && a < MAX_ATTEMPTS then Decide(run, k, a + 1)
      else Core(Failed, a, "", Some(f))
  }

  ghost function Eval(g: Graph, run: Outcomes, k: string): Core
    requires Stratified(g) && k in g
    decreases RankOf(g)[k]
  {
    if forall d | d in g[k] :: Eval(g, run, d).status == Succeeded then Decide(run, k, 1)
    else BLOCKED_CORE
  }

  ghost predicate Runs(g: Graph, run: Outcomes, k: string)
    requires Stratified(g) && k in g
  {
    forall d | d in g[k] :: Eval(g, run, d).status == Succeeded
  }

  // ------------------------------------------------------------------- rounds

  /** One lease, run and record of a step. */
  function Attempted(run: Outcomes, k: string, c: Core): Core {
    var a := c.attempt + 1;
    match run(k, a)
    case Produced(digest) => Core(Succeeded, a, digest, c.failureClass)
    case StepFailure(f) =>
      if PolicyFailure(f) then Core(PolicyDenied, a, c.resultDigest, Some(f))
      else if Retryable(f) && a < MAX_ATTEMPTS then Core(Ready, a, c.resultDigest, None)
      else Core(Failed, a, c.resultDigest, Some(f))
  }

  function AttemptAll(run: Outcomes, c: Cores, ks: set<string>): Cores {
    map k | k in c :: if k in ks then Attempted(run, k, c[k]) else c[k]
  }

  function WithStatus(c: Cores, s: JobStatus): set<string> {
    set k | k in c && c[k].status == s
  }

  ghost predicate Unblockable(g: Graph, c: Cores, k: string)
    requires k in g && k in c
  {
    c[k].status == Blocked && SetOf(g[k]) <= WithStatus(c, Succeeded)
  }

  ghost function Unblock(g: Graph, c: Cores): Cores
    requires c.Keys == g.Keys
  {
    map k | k in c :: if Unblockable(g, c, k) then c[k].(status := Ready) else c[k]
  }

  ghost function Round(g: Graph, run: Outcomes, c: Cores): Cores
    requires c.Keys == g.Keys
  {
    Unblock(g, AttemptAll(run, c, WithStatus(c, Ready)))
  }

  // -------------------------------------------------------- round by round

  /** The round at the end of which the step is decided; the latest among the
      first n dependencies. */
  ghost function Finish(g: Graph, run: Outcomes, k: string): nat
    requires Stratified(g) && k in g
    decreases RankOf(g)[k], |g[k]| + 1
  {
    Latest(g, run, k, |g[k]|) + Eval(g, run, k).attempt
  }

  ghost function Latest(g: Graph, run: Outcomes, k: string, n: nat): nat
    requires Stratified(g) && k in g && n <= |g[k]|
    decreases RankOf(g)[k], n
  {
    if n == 0 then 0
    else
      var before, last := Latest(g, run, k, n - 1), Finish(g, run, g[k][n - 1]);
      if before < last then last else before
  }

  ghost function Start(g: Graph, run: Outcomes, k: string): nat
    requires Stratified(g) && k in g
  {
    Latest(g, run, k, |g[k]|)
  }

  /** The number of steps on the longest dependency chain ending in k. */
  ghost function Depth(g: Graph, k: string): nat
    requires Stratified(g) && k in g
    decreases RankOf(g)[k], |g[k]| + 1
  {
    DeepestOf(g, k, |g[k]|) + 1
  }

  ghost function DeepestOf(g: Graph, k: string, n: nat): nat
    requires Stratified(g) && k in g && n <= |g[k]|
    decreases RankOf(g)[k], n
  {
    if n == 0 then 0
    else
      var before, last := DeepestOf(g, k, n - 1), Depth(g, g[k][n - 1]);
      if before < last then last else before
  }

  /** The core of step k after exactly n full rounds from dispatch. */
  ghost function CoreAt(g: Graph, run: Outcomes, k: string, n: nat): Core
    requires Stratified(g) && k in g
  {
    if !Runs(g, run, k) || n < Start(g, run, k) then BLOCKED_CORE
    else if n < Finish(g, run, k) then ReadyCore(n - Start(g, run, k))
    else Eval(g, run, k)
  }

  ghost predicate AtRound(g: Graph, run: Outcomes, c: Cores, n: nat)
    requires Stratified(g)
  {
    c.Keys == g.Keys && forall k {:trigger CoreAt(g, run, k, n)} | k in g :: c[k] == CoreAt(g, run, k, n)
  }

  /** Every step that can run has been decided by the end of round n. */
  ghost predicate DoneBy(g: Graph, run: Outcomes, n: nat)
    requires Stratified(g)
  {
    forall k {:trigger Finish(g, run, k)} | k in g && Runs(g, run, k) :: Finish(g, run, k) <= n
  }

  /** One more attempt of a step that is still undecided after `a` attempts. */
  lemma AttemptDecides(run: Outcomes, k: string, a: nat)
    requires a < Decide(run, k, 1).attempt
    ensures Attempted(run, k, ReadyCore(a)) ==
      if a + 1 < Decide(run, k, 1).attempt then ReadyCore(a + 1) else Decide(run, k, 1)
  {
    if a >= 1 {
      assert Decide(run, k, 1) == Decide(run, k, 2);
      if a >= 2 {
        assert Decide(run, k, 2) == Decide(run, k, 3);
      }
    }
  }

  lemma {:induction false} LatestCovers(g: Graph, run: Outcomes, k: string, n: nat, r: nat)
    requires Stratified(g) && k in g && n <= |g[k]|
    ensures Latest(g, run, k, n) <= r
       <==> forall i | 0 <= i < n :: Finish(g, run, g[k][i]) <= r
  {
    hide Finish, Stratified;
    assert Ranked(g, RankOf(g));
    if n > 0 {
      LatestCovers(g, run, k, n - 1, r);
    }
  }

  /** A step starts in the first round after all its dependencies finished. */
  lemma StartCovers(g: Graph, run: Outcomes, k: string, r: nat)
    requires Stratified(g) && k in g
    ensures Start(g, run, k) <= r <==> forall d | d in g[k] :: Finish(g, run, d) <= r
  {
    LatestCovers(g, run, k, |g[k]|, r);
  }

  /** The dependencies of k after the attempts of round n + 1: all have succeeded
      exactly when k runs and starts by then. */
  lemma DependenciesAfter(g: Graph, run: Outcomes, c: Cores, n: nat, k: string)
    requires Stratified(g) && AtRound(g, run, c, n) && k in g
    ensures
      var tried := AttemptAll(run, c, WithStatus(c, Ready));
      SetOf(g[k]) <= WithStatus(tried, Succeeded)
      <==> Runs(g, run, k) && Start(g, run, k) <= n + 1
  {
    hide *;
    RunsIs(g, run, k);
    var tried := AttemptAll(run, c, WithStatus(c, Ready));
    forall d | d in g[k]
      ensures d in WithStatus(tried, Succeeded)
         <==> Eval(g, run, d).status == Succeeded && Finish(g, run, d) <= n + 1
    {
      DependencyAfter(g, run, c, n, k, d);
    }
    StartCovers(g, run, k, n + 1);
    SetOfMembers(g[k]);
  }

  lemma RunsIs(g: Graph, run: Outcomes, k: string)
    requires Stratified(g) && k in g
    ensures forall d | d in g[k] :: d in g
    ensures Runs(g, run, k) <==> forall d | d in g[k] :: Eval(g, run, d).status == Succeeded
  {
    hide Eval;
    assert Ranked(g, RankOf(g));
  }

  lemma SetOfMembers(s: seq<string>)
    ensures forall d :: d in SetOf(s) <==> d in s
  {
  }

  lemma DependencyAfter(g: Graph, run: Outcomes, c: Cores, n: nat, k: string, d: string)
    requires Stratified(g) && AtRound(g, run, c, n) && k in g && d in g[k]
    ensures d in g
    ensures
      var tried := AttemptAll(run, c, WithStatus(c, Ready));
      d in WithStatus(tried, Succeeded)
      <==> Eval(g, run, d).status == Succeeded && Finish(g, run, d) <= n + 1
  {
    hide *;
    RunsIs(g, run, k);
    TriedCore(g, run, c, n, d);
    CoreAtIs(g, run, d, n + 1);
    CoreOfRound(g, run, c, n, d);
    TriedIs(run, c, d);
    InStatus(AttemptAll(run, c, WithStatus(c, Ready)), d, Succeeded);
  }

  lemma InStatus(c: Cores, k: string, s: JobStatus)
    ensures k in WithStatus(c, s) <==> k in c && c[k].status == s
    ensures ReadyCore(0).status == Ready && forall a: nat :: ReadyCore(a).status == Ready
    ensures BLOCKED_CORE.status == Blocked
  {
  }

  /** What the attempts of round n + 1 make of one step. */
  lemma TriedCore(g: Graph, run: Outcomes, c: Cores, n: nat, k: string)
    requires Stratified(g) && AtRound(g, run, c, n) && k in g
    ensures
      var tried := AttemptAll(run, c, WithStatus(c, Ready));
      tried[k] == if Runs(g, run, k) && Start(g, run, k) <= n then CoreAt(g, run, k, n + 1)
                  else BLOCKED_CORE
  {
    hide *;
    var start := Start(g, run, k);
    CoreOfRound(g, run, c, n, k);
    CoreAtIs(g, run, k, n);
    CoreAtIs(g, run, k, n + 1);
    TriedIs(run, c, k);
    if Runs(g, run, k) && start <= n < Finish(g, run, k) {
      AttemptDecides(run, k, n - start);
    }
  }

  lemma CoreOfRound(g: Graph, run: Outcomes, c: Cores, n: nat, k: string)
    requires Stratified(g) && AtRound(g, run, c, n) && k in g
    ensures k in c && c[k] == CoreAt(g, run, k, n) && c.Keys == g.Keys
  {
  }

  lemma TriedIs(run: Outcomes, c: Cores, k: string)
    requires k in c
    ensures
      var tried := AttemptAll(run, c, WithStatus(c, Ready));
      && k in tried
      && tried[k] == if c[k].status == Ready then Attempted(run, k, c[k]) else c[k]
  {
  }

  /** The three stages of a step, with what they depend on spelled out. */
  lemma CoreAtIs(g: Graph, run: Outcomes, k: string, n: nat)
    requires Stratified(g) && k in g
    ensures
      var start, e := Start(g, run, k), Eval(g, run, k);
      && Finish(g, run, k) == start + e.attempt && BLOCKED_CORE.status == Blocked
      && (!Runs(g, run, k) || n < start ==> CoreAt(g, run, k, n) == BLOCKED_CORE)
      && (Runs(g, run, k) && start <= n < Finish(g, run, k) ==>
            CoreAt(g, run, k, n) == ReadyCore(n - start) && ReadyCore(n - start).status == Ready)
      && (Runs(g, run, k) && Finish(g, run, k) <= n ==> CoreAt(g, run, k, n) == e)
      && (Runs(g, run, k) ==>
            e == Decide(run, k, 1) && e.attempt >= 1
            && e.status != Ready && e.status != Blocked)
      && (!Runs(g, run, k) ==> e == BLOCKED_CORE)
  {
    hide Latest, Decide;
  }

  lemma UnblockedCore(g: Graph, c: Cores, k: string)
    requires c.Keys == g.Keys && k in g
    ensures Unblock(g, c)[k] ==
      if c[k].status == Blocked && SetOf(g[k]) <= WithStatus(c, Succeeded)
      then c[k].(status := Ready) else c[k]
  {
  }

  lemma CoreAtStatus(g: Graph, run: Outcomes, k: string, n: nat)
    requires Stratified(g) && k in g
    ensures CoreAt(g, run, k, n).status == Blocked
       <==> !Runs(g, run, k) || n < Start(g, run, k)
    ensures Runs(g, run, k) && Start(g, run, k) == n ==> CoreAt(g, run, k, n) == ReadyCore(0)
  {
  }

  lemma RoundAdvancesStep(g: Graph, run: Outcomes, c: Cores, n: nat, k: string)
    requires Stratified(g) && AtRound(g, run, c, n) && k in g
    ensures Round(g, run, c)[k] == CoreAt(g, run, k, n + 1)
  {
    TriedCore(g, run, c, n, k);
    DependenciesAfter(g, run, c, n, k);
    UnblockedCore(g, AttemptAll(run, c, WithStatus(c, Ready)), k);
    CoreAtStatus(g, run, k, n + 1);
  }

  /** Exactness: a full round takes the table of round n to that of round n + 1. */
  lemma RoundAdvances(g: Graph, run: Outcomes, c: Cores, n: nat)
    requires Stratified(g) && AtRound(g, run, c, n)
    ensures AtRound(g, run, Round(g, run, c), n + 1)
  {
    forall k | k in g ensures Round(g, run, c)[k] == CoreAt(g, run, k, n + 1) {
      RoundAdvancesStep(g, run, c, n, k);
    }
  }

  /** While some step that can run is undecided, some step is ready. */
  lemma {:induction false} UndecidedMeansReady(g: Graph, run: Outcomes, k: string, n: nat)
    returns (ready: string)
    requires Stratified(g) && k in g && Runs(g, run, k) && n < Finish(g, run, k)
    ensures ready in g && CoreAt(g, run, ready, n).status == Ready
    decreases RankOf(g)[k]
  {
    if Start(g, run, k) <= n {
      ready := k;
    } else {
      StartCovers(g, run, k, n);
      var d :| d in g[k] && n < Finish(g, run, d);
      ready := UndecidedMeansReady(g, run, d, n);
    }
  }

  /** The first empty round is final: nothing changes in any later round. */
  lemma DoneIsFinal(g: Graph, run: Outcomes, c: Cores, n: nat, m: nat)
    requires Stratified(g) && AtRound(g, run, c, n) && DoneBy(g, run, n) && n <= m
    ensures AtRound(g, run, c, m)
  {
    forall k | k in g ensures CoreAt(g, run, k, n) == CoreAt(g, run, k, m) {
    }
  }

  /** After n rounds the table is the evaluation of the plan exactly when n rounds
      were enough, and then no round was left to run. */
  lemma DrainedExactly(g: Graph, run: Outcomes, c: Cores, n: nat)
    requires Stratified(g) && AtRound(g, run, c, n)
    ensures DoneBy(g, run, n) <==> forall k | k in g :: c[k] == Eval(g, run, k)
    ensures DoneBy(g, run, n) <==> WithStatus(c, Ready) == {}
  {
    hide CoreAt, Eval, Finish, Start, Runs, Stratified;
    forall k | k in g
      ensures c[k] == CoreAt(g, run, k, n)
      ensures c[k] == Eval(g, run, k) <==> !Runs(g, run, k) || Finish(g, run, k) <= n
      ensures c[k].status == Ready ==> Runs(g, run, k) && n < Finish(g, run, k)
    {
      CoreOfRound(g, run, c, n, k);
      CoreAtIs(g, run, k, n);
      if Runs(g, run, k) && n < Finish(g, run, k) {
        UndecidedDiffers(g, run, k, n);
      }
    }
    if !DoneBy(g, run, n) {
      var k :| k in g && Runs(g, run, k) && n < Finish(g, run, k);
      var ready := UndecidedMeansReady(g, run, k, n);
      assert ready in WithStatus(c, Ready);
    }
  }

  lemma UndecidedDiffers(g: Graph, run: Outcomes, k: string, n: nat)
    requires Stratified(g) && k in g && Runs(g, run, k) && n < Finish(g, run, k)
    ensures CoreAt(g, run, k, n) != Eval(g, run, k)
  {
    hide *;
    CoreAtIs(g, run, k, n);
  }

  /** c is the table of c0 after r more rounds, whichever round c0 stands at. */
  ghost predicate Advanced(g: Graph, run: Outcomes, c0: Cores, c: Cores, r: nat)
    requires Stratified(g)
  {
    forall n: nat :: AtRound(g, run, c0, n) ==> AtRound(g, run, c, n + r)
  }

  lemma AdvancedByNothing(g: Graph, run: Outcomes, c: Cores)
    requires Stratified(g)
    ensures Advanced(g, run, c, c, 0)
  {
  }

  lemma AdvancedByRound(g: Graph, run: Outcomes, c0: Cores, c: Cores, r: nat)
    requires Stratified(g) && c.Keys == g.Keys && Advanced(g, run, c0, c, r)
    ensures Advanced(g, run, c0, Round(g, run, c), r + 1)
  {
    hide AtRound, Round;
    forall n: nat ensures AtRound(g, run, c0, n) ==> AtRound(g, run, Round(g, run, c), n + (r + 1)) {
      AdvancedByRoundAt(g, run, c0, c, r, n);
    }
  }

  lemma AdvancedByRoundAt(g: Graph, run: Outcomes, c0: Cores, c: Cores, r: nat, n: nat)
    requires Stratified(g) && c.Keys == g.Keys && Advanced(g, run, c0, c, r)
    ensures AtRound(g, run, c0, n) ==> AtRound(g, run, Round(g, run, c), n + (r + 1))
  {
    hide *;
    AdvancedAt(g, run, c0, c, r, n);
    if AtRound(g, run, c0, n) {
      RoundAdvances(g, run, c, n + r);
    }
  }

  lemma AdvancedAt(g: Graph, run: Outcomes, c0: Cores, c: Cores, r: nat, n: nat)
    requires Stratified(g) && Advanced(g, run, c0, c, r)
    ensures AtRound(g, run, c0, n) ==> AtRound(g, run, c, n + r)
  {
  }

  lemma AdvancedToTheEnd(g: Graph, run: Outcomes, c0: Cores, c: Cores, r: nat, m: nat)
    requires Stratified(g) && Advanced(g, run, c0, c, r)
    requires WithStatus(c, Ready) == {} && r <= m
    ensures Advanced(g, run, c0, c, m)
  {
    hide AtRound, WithStatus;
    forall n: nat ensures AtRound(g, run, c0, n) ==> AtRound(g, run, c, n + m) {
      AdvancedToTheEndAt(g, run, c0, c, r, m, n);
    }
  }

  lemma AdvancedToTheEndAt(g: Graph, run: Outcomes, c0: Cores, c: Cores, r: nat, m: nat, n: nat)
    requires Stratified(g) && Advanced(g, run, c0, c, r)
    requires WithStatus(c, Ready) == {} && r <= m
    ensures AtRound(g, run, c0, n) ==> AtRound(g, run, c, n + m)
  {
    hide *;
    AdvancedAt(g, run, c0, c, r, n);
    if AtRound(g, run, c0, n) {
      DrainedExactly(g, run, c, n + r);
      DoneIsFinal(g, run, c, n + r, n + m);
    }
  }

  /** If c0 stands at round n, round n + r did not yet decide every step. */
  ghost predicate NotDoneBy(g: Graph, run: Outcomes, c0: Cores, r: nat)
    requires Stratified(g)
  {
    forall n: nat :: AtRound(g, run, c0, n) ==> !DoneBy(g, run, n + r)
  }

  /** A ready step after r more rounds means they were not enough. */
  lemma ReadyNotDone(g: Graph, run: Outcomes, c0: Cores, c: Cores, r: nat)
    requires Stratified(g) && Advanced(g, run, c0, c, r) && WithStatus(c, Ready) != {}
    ensures NotDoneBy(g, run, c0, r)
  {
    hide AtRound, WithStatus, DoneBy;
    forall n: nat ensures AtRound(g, run, c0, n) ==> !DoneBy(g, run, n + r) {
      AdvancedAt(g, run, c0, c, r, n);
      if AtRound(g, run, c0, n) {
        DrainedExactly(g, run, c, n + r);
      }
    }
  }

  lemma {:induction false} LatestBound(g: Graph, run: Outcomes, k: string, n: nat)
    requires Stratified(g) && k in g && n <= |g[k]|
    ensures Latest(g, run, k, n) <= MAX_ATTEMPTS * DeepestOf(g, k, n)
    decreases RankOf(g)[k], n
  {
    if n > 0 {
      LatestBound(g, run, k, n - 1);
      FinishBound(g, run, g[k][n - 1]);
    }
  }

  /** A step is decided within MAX_ATTEMPTS rounds per step of its longest chain. */
  lemma {:induction false} FinishBound(g: Graph, run: Outcomes, k: string)
    requires Stratified(g) && k in g
    ensures Finish(g, run, k) <= MAX_ATTEMPTS * Depth(g, k)
    decreases RankOf(g)[k], |g[k]| + 1
  {
    LatestBound(g, run, k, |g[k]|);
  }

  // ------------------------------------------------- invariant of any drain

  ghost predicate DependenciesDone(g: Graph, run: Outcomes, c: Cores, k: string)
    requires Stratified(g) && c.Keys == g.Keys && k in g
  {
    forall d | d in g[k] :: c[d] == Eval(g, run, d) && c[d].status == Succeeded
  }

  ghost predicate StepOnTrack(g: Graph, run: Outcomes, c: Cores, k: string)
    requires Stratified(g) && c.Keys == g.Keys && k in g
  {
    || c[k] == BLOCKED_CORE
    || (&& DependenciesDone(g, run, c, k)
        && (|| c[k] == Eval(g, run, k)
            || (c[k] == ReadyCore(c[k].attempt) && c[k].attempt < Eval(g, run, k).attempt)))
  }

  /** Every step is untouched, or ready with its dependencies succeeded and its
      earlier attempts undecided, or decided as the evaluation says. */
  ghost predicate OnTrack(g: Graph, run: Outcomes, c: Cores)
    requires Stratified(g)
  {
    c.Keys == g.Keys && forall k {:trigger StepOnTrack(g, run, c, k)} | k in g :: StepOnTrack(g, run, c, k)
  }

  ghost predicate NothingToUnblock(g: Graph, c: Cores)
    requires c.Keys == g.Keys
  {
    forall k {:trigger Unblockable(g, c, k)} | k in g :: !Unblockable(g, c, k)
  }

  /** Work that a drain can see is never stranded. */
  ghost predicate Resumable(g: Graph, c: Cores)
    requires c.Keys == g.Keys
  {
    WithStatus(c, Ready) != {} || NothingToUnblock(g, c)
  }

  /** Attempting any of the ready steps keeps every step on track. */
  lemma AttemptsKeepTrack(g: Graph, run: Outcomes, c: Cores, ks: set<string>)
    requires Stratified(g) && OnTrack(g, run, c) && ks <= WithStatus(c, Ready)
    ensures OnTrack(g, run, AttemptAll(run, c, ks))
  {
    var c' := AttemptAll(run, c, ks);
    forall k | k in g ensures StepOnTrack(g, run, c', k) {
      assert StepOnTrack(g, run, c, k);
      if k in ks {
        assert Runs(g, run, k);
        AttemptDecides(run, k, c[k].attempt);
      }
    }
  }

  lemma UnblockKeepsStep(g: Graph, run: Outcomes, c: Cores, k: string)
    requires Stratified(g) && OnTrack(g, run, c) && k in g
    ensures StepOnTrack(g, run, Unblock(g, c), k)
  {
    hide Decide;
    assert StepOnTrack(g, run, c, k);
    UnblockedCore(g, c, k);
    if Unblockable(g, c, k) {
      forall d | d in g[k] ensures c[d] == Eval(g, run, d) && c[d].status == Succeeded {
        assert d in SetOf(g[k]);
        assert StepOnTrack(g, run, c, d);
      }
    }
  }

  lemma UnblockKeepsTrack(g: Graph, run: Outcomes, c: Cores)
    requires Stratified(g) && OnTrack(g, run, c)
    ensures OnTrack(g, run, Unblock(g, c)) && NothingToUnblock(g, Unblock(g, c))
  {
    var c' := Unblock(g, c);
    assert WithStatus(c', Succeeded) == WithStatus(c, Succeeded);
    forall k | k in g ensures StepOnTrack(g, run, c', k) && !Unblockable(g, c', k) {
      UnblockKeepsStep(g, run, c, k);
      UnblockedCore(g, c, k);
    }
  }

  /** Confluence: on track, with nothing ready and nothing to unblock, there is
      only one possible table. */
  lemma {:induction false} DrainedIsEval(g: Graph, run: Outcomes, c: Cores, k: string)
    requires Stratified(g) && OnTrack(g, run, c) && k in g
    requires WithStatus(c, Ready) == {} && NothingToUnblock(g, c)
    ensures c[k] == Eval(g, run, k)
    decreases RankOf(g)[k]
  {
    assert StepOnTrack(g, run, c, k) && !Unblockable(g, c, k);
    assert k !in WithStatus(c, Ready);
    if c[k] == BLOCKED_CORE && Runs(g, run, k) {
      forall d | d in SetOf(g[k]) ensures d in WithStatus(c, Succeeded) {
        DrainedIsEval(g, run, c, d);
      }
      assert false;
    }
  }

  /** What a step must finally have come to, said of its attempts alone: a step with a
      dependency that did not succeed is never attempted. Any other is attempted until
      it succeeds, is out of scope or not approved, fails on its input or on parsing,
      or has failed transiently three times. */
  ghost predicate IsFinal(g: Graph, run: Outcomes, c: Cores, k: string)
    requires k in g && k in c
  {
    var x := c[k];
    if exists d | d in g[k] :: d !in c || c[d].status != Succeeded then
      x == Core(Blocked, 0, "", None)
    else
      && 1 <= x.attempt <= 3
      && (forall a | 1 <= a < x.attempt ::
            run(k, a) in {StepFailure(WorkerUnavailable), StepFailure(Timeout)})
      && match run(k, x.attempt)
         case Produced(digest) => x == Core(Succeeded, x.attempt, digest, None)
         case StepFailure(f) =>
           match f
           case OutOfScope | NotApproved => x == Core(PolicyDenied, x.attempt, "", Some(f))
           case InputInvalid | ParseFailed => x == Core(Failed, x.attempt, "", Some(f))
           case WorkerUnavailable | Timeout => x == Core(Failed, 3, "", Some(f))
  }

  /** The decision of a step is the only core that its attempts allow. */
  lemma DecideIsFinal(run: Outcomes, k: string, x: Core)
    ensures IsFinal(map[k := []], run, map[k := x], k) <==> x == Decide(run, k, 1)
  {
    assert Decide(run, k, 1).attempt >= 2 ==> Decide(run, k, 1) == Decide(run, k, 2);
    assert Decide(run, k, 2).attempt >= 3 ==> Decide(run, k, 2) == Decide(run, k, 3);
  }

  /** The evaluation of a plan is its only table in which every step is final. */
  lemma {:induction false} FinalIsEval(g: Graph, run: Outcomes, c: Cores, k: string)
    requires Stratified(g) && c.Keys == g.Keys && k in g && forall j | j in g :: IsFinal(g, run, c, j)
    ensures c[k] == Eval(g, run, k)
    decreases RankOf(g)[k]
  {
    hide Decide, Stratified;
    RunsIs(g, run, k);
    assert Ranked(g, RankOf(g));
    forall d | d in g[k] ensures c[d] == Eval(g, run, d) {
      FinalIsEval(g, run, c, d);
    }
    FinalAlone(g, run, c, k);
    DecideIsFinal(run, k, c[k]);
  }

  lemma FinalAlone(g: Graph, run: Outcomes, c: Cores, k: string)
    requires k in g && k in c
    ensures (exists d | d in g[k] :: d !in c || c[d].status != Succeeded)
      || (IsFinal(g, run, c, k) <==> IsFinal(map[k := []], run, map[k := c[k]], k))
  {
  }

  lemma EvalIsFinal(g: Graph, run: Outcomes, c: Cores, k: string)
    requires Stratified(g) && c.Keys == g.Keys && k in g
    requires forall j | j in g :: c[j] == Eval(g, run, j)
    ensures IsFinal(g, run, c, k)
  {
    hide Decide, Stratified;
    RunsIs(g, run, k);
    FinalAlone(g, run, c, k);
    DecideIsFinal(run, k, c[k]);
  }

  /** Dependency safety, read off the invariant: a step that has been attempted or
      may be attempted has only succeeded dependencies, at most three attempts, and
      none left to make after one that was not transient. */
  lemma TrackedStepIsSafe(g: Graph, run: Outcomes, c: Cores, k: string)
    requires Stratified(g) && OnTrack(g, run, c) && k in g && c[k] != BLOCKED_CORE
    ensures forall d | d in g[k] :: d in c && c[d].status == Succeeded
    ensures c[k].attempt <= 3
    ensures forall a | 1 <= a <= c[k].attempt && (c[k].status == Ready || a < c[k].attempt) ::
      run(k, a) in {StepFailure(WorkerUnavailable), StepFailure(Timeout)}
  {
    hide Decide, Eval, Stratified;
    assert StepOnTrack(g, run, c, k);
    RunsIs(g, run, k);
    CoreAtIs(g, run, k, 0);
    forall a | 1 <= a < Decide(run, k, 1).attempt
      ensures run(k, a) in {StepFailure(WorkerUnavailable), StepFailure(Timeout)}
    {
      UndecidedAttempt(run, k, a);
    }
  }

  lemma UndecidedAttempt(run: Outcomes, k: string, a: nat)
    requires 1 <= a < Decide(run, k, 1).attempt
    ensures run(k, a) in {StepFailure(WorkerUnavailable), StepFailure(Timeout)}
  {
    if a >= 2 {
      assert Decide(run, k, 1) == Decide(run, k, 2);
    }
  }

  /** A dependency has succeeded by round n exactly if it is one that will and has
      finished by then. */
  lemma SucceededAt(g: Graph, run: Outcomes, c: Cores, n: nat, d: string)
    requires Stratified(g) && AtRound(g, run, c, n) && d in g
    ensures d in c
    ensures c[d].status == Succeeded <==> Eval(g, run, d).status == Succeeded && Finish(g, run, d) <= n
    ensures Eval(g, run, d).status == Succeeded && Finish(g, run, d) <= n ==> c[d] == Eval(g, run, d)
  {
    hide *;
    CoreOfRound(g, run, c, n, d);
    CoreAtIs(g, run, d, n);
  }

  lemma AtRoundStep(g: Graph, run: Outcomes, c: Cores, n: nat, k: string)
    requires Stratified(g) && AtRound(g, run, c, n) && k in g
    ensures c.Keys == g.Keys && StepOnTrack(g, run, c, k) && !Unblockable(g, c, k)
  {
    hide Eval, Finish, Start, Latest, Runs, CoreAt, AtRound, Stratified, Decide;
    CoreOfRound(g, run, c, n, k);
    CoreAtIs(g, run, k, n);
    RunsIs(g, run, k);
    StartCovers(g, run, k, n);
    forall d | d in g[k]
      ensures c[d].status == Succeeded
         <==> Eval(g, run, d).status == Succeeded && Finish(g, run, d) <= n
      ensures Eval(g, run, d).status == Succeeded && Finish(g, run, d) <= n ==> c[d] == Eval(g, run, d)
    {
      SucceededAt(g, run, c, n, d);
    }
    if Unblockable(g, c, k) {
      forall d | d in g[k] ensures c[d].status == Succeeded {
        assert d in SetOf(g[k]);
      }
    }
  }

  /** The table of round n is on track, so both descriptions apply to it. */
  lemma AtRoundIsOnTrack(g: Graph, run: Outcomes, c: Cores, n: nat)
    requires Stratified(g) && AtRound(g, run, c, n)
    ensures OnTrack(g, run, c) && NothingToUnblock(g, c)
  {
    hide StepOnTrack, Unblockable;
    forall k | k in g ensures c.Keys == g.Keys && StepOnTrack(g, run, c, k) && !Unblockable(g, c, k) {
      AtRoundStep(g, run, c, n, k);
    }
  }

  /** Dispatch: steps with dependencies start BLOCKED, the others READY. */
  function InitialCores(g: Graph): Cores {
    map k | k in g :: if g[k] == [] then ReadyCore(0) else BLOCKED_CORE
  }

  lemma DispatchIsRoundZero(g: Graph, run: Outcomes)
    requires Stratified(g)
    ensures AtRound(g, run, InitialCores(g), 0)
  {
    forall k | k in g ensures InitialCores(g)[k] == CoreAt(g, run, k, 0) {
      StartCovers(g, run, k, 0);
      if g[k] != [] {
        assert g[k][0] in g[k];
        if Runs(g, run, k) {
          assert Finish(g, run, g[k][0]) >= 1;
        }
      }
    }
  }

  // --------------------------------------------------- what a drain never undoes

  predicate Decided(c: Core) {
    c.status == Succeeded || c.status == Failed || c.status == PolicyDenied
  }

  /** Every step decided in c stands in c' as it did. */
  ghost predicate KeepsDecided(c: Cores, c': Cores) {
    forall k | k in c && Decided(c[k]) :: k in c' && c'[k] == c[k]
  }

  /** Neither attempting ready steps nor unblocking touches a decided step. */
  lemma AttemptsKeepDecided(run: Outcomes, c: Cores, ks: set<string>)
    requires ks <= WithStatus(c, Ready)
    ensures KeepsDecided(c, AttemptAll(run, c, ks))
  {
  }

  lemma RoundKeepsDecided(g: Graph, run: Outcomes, c: Cores)
    requires c.Keys == g.Keys
    ensures KeepsDecided(c, Round(g, run, c))
  {
    hide Attempted;
    forall k | k in c && Decided(c[k]) ensures Round(g, run, c)[k] == c[k] {
      UnblockedCore(g, AttemptAll(run, c, WithStatus(c, Ready)), k);
    }
  }

  // ------------------------------------------- drains that start in mid-round

  /** Step k stands in c at least where round n would have it. */
  ghost predicate StepAhead(g: Graph, run: Outcomes, c: Cores, k: string, n: nat)
    requires Stratified(g) && k in g && k in c
  {
    Runs(g, run, k) ==>
      && (Finish(g, run, k) <= n ==> c[k] == Eval(g, run, k))
      && (Start(g, run, k) <= n < Finish(g, run, k) ==>
            c[k] == Eval(g, run, k) || (c[k].status == Ready && n - Start(g, run, k) <= c[k].attempt))
  }

  ghost predicate Ahead(g: Graph, run: Outcomes, c: Cores, n: nat)
    requires Stratified(g)
  {
    c.Keys == g.Keys && forall k {:trigger StepAhead(g, run, c, k, n)} | k in g ::
      StepAhead(g, run, c, k, n)
  }

  lemma OnTrackParts(g: Graph, run: Outcomes, c: Cores, k: string)
    requires Stratified(g) && OnTrack(g, run, c) && k in g
    ensures c.Keys == g.Keys && k in c
    ensures c[k] != BLOCKED_CORE ==> Runs(g, run, k)
    ensures c[k] != BLOCKED_CORE && c[k] != Eval(g, run, k) ==>
      c[k] == ReadyCore(c[k].attempt) && c[k].attempt < Eval(g, run, k).attempt
  {
    hide Eval, Decide, Stratified;
    assert StepOnTrack(g, run, c, k);
    RunsIs(g, run, k);
  }

  /** A started step after the attempts of one more round. */
  lemma TriedAhead(g: Graph, run: Outcomes, c: Cores, n: nat, k: string)
    requires Stratified(g) && OnTrack(g, run, c) && k in g && k in c && StepAhead(g, run, c, k, n)
    requires Runs(g, run, k) && Start(g, run, k) <= n
    ensures
      var tried := AttemptAll(run, c, WithStatus(c, Ready));
      && k in tried && tried[k].status != Blocked && StepAhead(g, run, tried, k, n + 1)
  {
    hide Eval, Finish, Start, Latest, Runs, CoreAt, Stratified, Decide, OnTrack, AttemptAll;
    CoreAtIs(g, run, k, n);
    OnTrackParts(g, run, c, k);
    TriedIs(run, c, k);
    if c[k] != Eval(g, run, k) {
      assert BLOCKED_CORE.status == Blocked;
      AttemptDecides(run, k, c[k].attempt);
    }
  }

  /** A dependency that has finished by then has succeeded in the tried table. */
  lemma DependencyTried(g: Graph, run: Outcomes, c: Cores, n: nat, k: string, d: string)
    requires Stratified(g) && OnTrack(g, run, c) && Ahead(g, run, c, n)
    requires k in g && d in g[k] && Runs(g, run, k) && Start(g, run, k) <= n + 1
    ensures d in WithStatus(AttemptAll(run, c, WithStatus(c, Ready)), Succeeded)
  {
    hide Eval, Finish, Start, Latest, Runs, CoreAt, Stratified, Decide, OnTrack, AttemptAll;
    RunsIs(g, run, k);
    StartCovers(g, run, k, n + 1);
    CoreAtIs(g, run, d, n);
    OnTrackParts(g, run, c, d);
    assert StepAhead(g, run, c, d, n);
    TriedAhead(g, run, c, n, d);
  }

  lemma StepAheadAfterRound(g: Graph, run: Outcomes, c: Cores, n: nat, k: string)
    requires Stratified(g) && OnTrack(g, run, c) && Ahead(g, run, c, n) && k in g
    ensures c.Keys == g.Keys && StepAhead(g, run, Round(g, run, c), k, n + 1)
  {
    hide Eval, Finish, Start, Latest, Runs, CoreAt, Stratified, Decide, OnTrack, AttemptAll, Unblock;
    OnTrackParts(g, run, c, k);
    CoreAtIs(g, run, k, n + 1);
    var tried := AttemptAll(run, c, WithStatus(c, Ready));
    TriedIs(run, c, k);
    TriedKeys(run, c);
    UnblockedCore(g, tried, k);
    if Runs(g, run, k) && Start(g, run, k) <= n {
      assert StepAhead(g, run, c, k, n);
      TriedAhead(g, run, c, n, k);
    } else if Runs(g, run, k) && Start(g, run, k) == n + 1 {
      forall d | d in SetOf(g[k]) ensures d in WithStatus(tried, Succeeded) {
        DependencyTried(g, run, c, n, k, d);
      }
      NotStartedYet(g, run, c, k);
    }
  }

  lemma TriedKeys(run: Outcomes, c: Cores)
    ensures AttemptAll(run, c, WithStatus(c, Ready)).Keys == c.Keys
  {
  }

  /** A step that runs is blocked, ready or evaluated, before and after its try. */
  lemma NotStartedYet(g: Graph, run: Outcomes, c: Cores, k: string)
    requires Stratified(g) && OnTrack(g, run, c) && k in g && k in c && Runs(g, run, k)
    ensures
      var tried := AttemptAll(run, c, WithStatus(c, Ready));
      && k in tried
      && (tried[k] == BLOCKED_CORE || tried[k] == Eval(g, run, k) || tried[k].status == Ready)
  {
    hide Eval, Runs, Stratified, Decide, OnTrack, AttemptAll;
    OnTrackParts(g, run, c, k);
    TriedIs(run, c, k);
    CoreAtIs(g, run, k, 0);
    if c[k] != BLOCKED_CORE && c[k] != Eval(g, run, k) {
      AttemptDecides(run, k, c[k].attempt);
    }
  }

  /** A full round leads on, wherever the drain had been stopped before. */
  lemma RoundGetsAhead(g: Graph, run: Outcomes, c: Cores, n: nat)
    requires Stratified(g) && OnTrack(g, run, c) && Ahead(g, run, c, n)
    ensures c.Keys == g.Keys && Ahead(g, run, Round(g, run, c), n + 1)
  {
    hide StepAhead, OnTrack, Stratified;
    forall k | k in g ensures StepAhead(g, run, Round(g, run, c), k, n + 1) {
      StepAheadAfterRound(g, run, c, n, k);
    }
  }

  /** After one full round every table on track stands at least at round zero. */
  lemma FirstRoundCatchesUp(g: Graph, run: Outcomes, c: Cores)
    requires Stratified(g) && OnTrack(g, run, c)
    ensures c.Keys == g.Keys && Ahead(g, run, Round(g, run, c), 0)
  {
    hide StepAhead, OnTrack, Stratified;
    forall k | k in g ensures c.Keys == g.Keys && StepAhead(g, run, Round(g, run, c), k, 0) {
      StepCatchesUp(g, run, c, k);
    }
    if g == map[] {
      OnTrackKeys(g, run, c);
    }
  }

  lemma OnTrackKeys(g: Graph, run: Outcomes, c: Cores)
    requires Stratified(g) && OnTrack(g, run, c)
    ensures c.Keys == g.Keys
  {
  }

  lemma StepCatchesUp(g: Graph, run: Outcomes, c: Cores, k: string)
    requires Stratified(g) && OnTrack(g, run, c) && k in g
    ensures c.Keys == g.Keys && StepAhead(g, run, Round(g, run, c), k, 0)
  {
    hide Eval, Finish, Start, Latest, Runs, CoreAt, Stratified, Decide, OnTrack, AttemptAll, Unblock;
    OnTrackParts(g, run, c, k);
    CoreAtIs(g, run, k, 0);
    TriedKeys(run, c);
    UnblockedCore(g, AttemptAll(run, c, WithStatus(c, Ready)), k);
    if Runs(g, run, k) && Start(g, run, k) <= 0 {
      NotStartedYet(g, run, c, k);
      NoDependencies(g, run, k);
    }
  }

  lemma NoDependencies(g: Graph, run: Outcomes, k: string)
    requires Stratified(g) && k in g && Runs(g, run, k) && Start(g, run, k) == 0
    ensures SetOf(g[k]) == {}
  {
    hide Eval, Finish, Start, Latest, Runs, Stratified;
    RunsIs(g, run, k);
    StartCovers(g, run, k, 0);
    forall d | d in SetOf(g[k]) ensures false {
      CoreAtIs(g, run, d, 0);
    }
  }

  /** Ahead of a round by which everything was decided nothing is ready. */
  lemma AheadOfDone(g: Graph, run: Outcomes, c: Cores, n: nat, m: nat)
    requires Stratified(g) && OnTrack(g, run, c) && Ahead(g, run, c, n)
    requires DoneBy(g, run, m) && m <= n
    ensures WithStatus(c, Ready) == {}
  {
    hide Eval, Finish, Start, Latest, Runs, CoreAt, Stratified, Decide, OnTrack;
    forall k | k in c ensures c[k].status != Ready {
      AheadStepDone(g, run, c, n, m, k);
    }
  }

  lemma AheadStepDone(g: Graph, run: Outcomes, c: Cores, n: nat, m: nat, k: string)
    requires Stratified(g) && OnTrack(g, run, c) && Ahead(g, run, c, n) && k in c
    requires DoneBy(g, run, m) && m <= n
    ensures c[k].status != Ready
  {
    hide Eval, Finish, Start, Latest, Runs, CoreAt, Stratified, Decide, OnTrack;
    OnTrackParts(g, run, c, k);
    CoreAtIs(g, run, k, n);
    assert StepAhead(g, run, c, k, n);
    assert Runs(g, run, k) ==> Finish(g, run, k) <= m;
  }

  /** c is on track and at least where i full rounds must have brought it. */
  ghost predicate CaughtUp(g: Graph, run: Outcomes, c: Cores, i: nat)
    requires Stratified(g)
  {
    OnTrack(g, run, c) && (i > 0 ==> Ahead(g, run, c, i - 1))
  }

  lemma CatchUpRound(g: Graph, run: Outcomes, c: Cores, i: nat)
    requires Stratified(g) && CaughtUp(g, run, c, i)
    requires c.Keys == g.Keys && OnTrack(g, run, Round(g, run, c))
    ensures CaughtUp(g, run, Round(g, run, c), i + 1)
  {
    hide OnTrack, Ahead, Stratified, Round;
    if i > 0 {
      RoundGetsAhead(g, run, c, i - 1);
    } else {
      FirstRoundCatchesUp(g, run, c);
    }
  }

  lemma CaughtUpByNothing(g: Graph, run: Outcomes, c: Cores)
    requires Stratified(g) && OnTrack(g, run, c)
    ensures CaughtUp(g, run, c, 0)
  {
  }

  /** With nothing ready every step has its evaluation, so no round is ahead. */
  lemma CaughtUpToTheEnd(g: Graph, run: Outcomes, c: Cores, j: nat)
    requires Stratified(g) && c.Keys == g.Keys && OnTrack(g, run, c)
    requires Resumable(g, c) && WithStatus(c, Ready) == {}
    ensures CaughtUp(g, run, c, j)
  {
    hide OnTrack, WithStatus, Stratified, NothingToUnblock, Eval, Finish, Start, Latest, Runs, Decide;
    if j > 0 {
      forall k | k in g ensures StepAhead(g, run, c, k, j - 1) {
        DrainedIsEval(g, run, c, k);
      }
    }
  }

  /** How many rounds a drain from any point may need: one more than decide the
      plan from dispatch. */
  ghost predicate NotYetDone(g: Graph, run: Outcomes, i: nat)
    requires Stratified(g)
  {
    forall m: nat | DoneBy(g, run, m) :: i <= m
  }

  lemma ReadyNotYetDone(g: Graph, run: Outcomes, c: Cores, i: nat)
    requires Stratified(g) && CaughtUp(g, run, c, i) && WithStatus(c, Ready) != {}
    ensures NotYetDone(g, run, i)
  {
    hide OnTrack, Ahead, Stratified, DoneBy, WithStatus;
    forall m: nat | DoneBy(g, run, m) ensures i <= m {
      if i > m {
        AheadOfDone(g, run, c, i - 1, m);
      }
    }
  }

  // ---------------------------------------------------------------- tightness

  /** Times out until the last attempt, which succeeds. */
  const SLOW_RUNNER: Outcomes :=
    (k: string, n: nat) => if n < MAX_ATTEMPTS then StepFailure(Timeout) else Produced("digest")

  lemma SlowDecides(k: string)
    ensures Decide(SLOW_RUNNER, k, 1) == Core(Succeeded, MAX_ATTEMPTS, "digest", None)
  {
    assert Decide(SLOW_RUNNER, k, 1) == Decide(SLOW_RUNNER, k, 2) == Decide(SLOW_RUNNER, k, 3);
  }

  lemma {:induction false} SlowLatest(g: Graph, k: string, n: nat)
    requires Stratified(g) && k in g && n <= |g[k]|
    ensures Latest(g, SLOW_RUNNER, k, n) == MAX_ATTEMPTS * DeepestOf(g, k, n)
    ensures forall i | 0 <= i < n :: g[k][i] in g && Runs(g, SLOW_RUNNER, g[k][i])
    decreases RankOf(g)[k], n
  {
    hide Eval, Runs;
    if n > 0 {
      SlowLatest(g, k, n - 1);
      SlowFinish(g, g[k][n - 1]);
    }
  }

  /** The bound on rounds is reached by every step at once. */
  lemma {:induction false} SlowFinish(g: Graph, k: string)
    requires Stratified(g) && k in g
    ensures Runs(g, SLOW_RUNNER, k) && Finish(g, SLOW_RUNNER, k) == MAX_ATTEMPTS * Depth(g, k)
    decreases RankOf(g)[k], |g[k]| + 1
  {
    hide Eval, Runs, Decide;
    SlowLatest(g, k, |g[k]|);
    SlowDecides(k);
    forall d | d in g[k] ensures d in g && Eval(g, SLOW_RUNNER, d).status == Succeeded {
      SlowDecides(d);
      CoreAtIs(g, SLOW_RUNNER, d, 0);
    }
    RunsIs(g, SLOW_RUNNER, k);
    CoreAtIs(g, SLOW_RUNNER, k, 0);
  }

  /** r rounds decide the plan whatever its steps do if and only if they are three
      per step of its longest dependency chain. */
  lemma EnoughRounds(g: Graph, r: nat)
    requires Stratified(g)
    ensures (forall run :: DoneBy(g, run, r)) <==> forall k | k in g :: MAX_ATTEMPTS * Depth(g, k) <= r
  {
    hide Depth, Finish, Runs, Stratified;
    if forall run :: DoneBy(g, run, r) {
      assert DoneBy(g, SLOW_RUNNER, r);
      forall k | k in g ensures MAX_ATTEMPTS * Depth(g, k) <= r {
        SlowFinish(g, k);
        assert Finish(g, SLOW_RUNNER, k) <= r;
      }
    }
    if forall k | k in g :: MAX_ATTEMPTS * Depth(g, k) <= r {
      forall run ensures DoneBy(g, run, r) {
        forall k | k in g && Runs(g, run, k) ensures Finish(g, run, k) <= r {
          FinishBound(g, run, k);
        }
      }
    }
  }
}
