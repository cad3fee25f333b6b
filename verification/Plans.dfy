/** Execution plans: creation is accepted exactly for plans whose step keys are
    unique, whose dependencies exist and whose dependency graph has no cycle. */
module Plans {
  import opened Wrappers

  datatype RiskClass = Passive | Low | Active | Intrusive | Destructive

  /** A parameter value of a step: a text or a tuple of texts. */
  datatype Parameter = Text(text: string) | Texts(texts: seq<string>)

  datatype PlanStep = PlanStep(
    key: string,
    runner: string,
    risk: RiskClass,
    parameters: map<string, Parameter>,
    dependencies: seq<string>)

  datatype ExecutionPlan = ExecutionPlan(
    id: string,
    assessmentId: string,
    version: int,
    steps: seq<PlanStep>,
    digest: string)

  datatype PlanError = BadVersion | DuplicateKeys | UnknownDependency | DependencyCycle

  /** The canonical digest of (assessment id, version, steps); only its being a
      function of them matters here. */
  type DigestFunction = (string, int, seq<PlanStep>) -> string

  // ------------------------------------------------------------------ graphs

  /** The keys a key depends on. */
  type Graph = map<string, seq<string>>

  function SetOf(s: seq<string>): set<string> {
    set x | x in s
  }

  function KeysOf(steps: seq<PlanStep>): (keys: seq<string>)
    ensures |keys| == |steps|
    ensures forall i | 0 <= i < |steps| :: keys[i] == steps[i].key
  {
    seq(|steps|, i requires 0 <= i < |steps| => steps[i].key)
  }

  /** The dictionary built from the steps; a later step overrides an earlier
      one with the same key. */
  function GraphOf(steps: seq<PlanStep>): (g: Graph)
    ensures g.Keys == SetOf(KeysOf(steps))
  {
    if steps == [] then map[]
    else
      var front, last := steps[..|steps| - 1], steps[|steps| - 1];
      assert KeysOf(steps) == KeysOf(front) + [last.key];
      GraphOf(front)[last.key := last.dependencies]
  }

  ghost predicate UniqueKeys(steps: seq<PlanStep>) {
    forall i, j | 0 <= i < j < |steps| :: steps[i].key != steps[j].key
  }

  ghost predicate ClosedSteps(steps: seq<PlanStep>) {
    forall s, d | s in steps && d in s.dependencies :: d in SetOf(KeysOf(steps))
  }

  ghost predicate Closed(g: Graph) {
    forall k, d | k in g && d in g[k] :: d in g
  }

  ghost predicate Edge(g: Graph, a: string, b: string) {
    a in g && b in g[a]
  }

  ghost predicate IsWalk(g: Graph, p: seq<string>) {
    forall i | 0 <= i < |p| - 1 :: Edge(g, p[i], p[i + 1])
  }

  ghost predicate IsCycle(g: Graph, p: seq<string>) {
    |p| >= 2 && IsWalk(g, p) && p[0] == p[|p| - 1]
  }

  ghost predicate HasCycle(g: Graph) {
    exists p :: IsCycle(g, p)
  }

  /** A rank that strictly decreases along every dependency. */
  ghost predicate Ranked(g: Graph, rank: map<string, nat>) {
    && rank.Keys == g.Keys
    && forall k, d | k in g && d in g[k] :: d in rank && rank[d] < rank[k]
  }

  ghost predicate Stratified(g: Graph) {
    exists rank :: Ranked(g, rank)
  }

  ghost function RankOf(g: Graph): (rank: map<string, nat>)
    requires Stratified(g)
    ensures Ranked(g, rank)
  {
    var rank :| Ranked(g, rank);
    rank
  }

  lemma {:induction false} WalkDescends(g: Graph, rank: map<string, nat>, p: seq<string>)
    requires Ranked(g, rank) && IsWalk(g, p) && |p| >= 2
    ensures p[0] in rank && p[|p| - 1] in rank && rank[p[|p| - 1]] < rank[p[0]]
  {
    assert Edge(g, p[0], p[1]);
    if |p| > 2 {
      var q := p[1..];
      forall i | 0 <= i < |q| - 1 ensures Edge(g, q[i], q[i + 1]) {
        assert Edge(g, p[i + 1], p[i + 2]);
      }
      WalkDescends(g, rank, q);
    }
  }

  /** A rank rules out every cycle. */
  lemma StratifiedHasNoCycle(g: Graph)
    requires Stratified(g)
    ensures !HasCycle(g)
  {
    if HasCycle(g) {
      var p :| IsCycle(g, p);
      WalkDescends(g, RankOf(g), p);
    }
  }

  /** In a dependency order every key comes after all its dependencies. */
  ghost predicate DependencyOrder(g: Graph, order: seq<string>) {
    forall i | 0 <= i < |order| ::
      order[i] in g && forall d | d in g[order[i]] :: d in order[..i]
  }

  ghost function FirstIndex(order: seq<string>, k: string): (i: nat)
    requires k in order
    ensures i < |order| && order[i] == k
    ensures forall j | 0 <= j < |order| && order[j] == k :: i <= j
  {
    if order[0] == k then 0 else 1 + FirstIndex(order[1..], k)
  }

  lemma DependencyOrderStratifies(g: Graph, order: seq<string>)
    requires DependencyOrder(g, order) && g.Keys == SetOf(order)
    ensures Stratified(g)
  {
    var rank: map<string, nat> := map k | k in g :: FirstIndex(order, k);
    forall k, d | k in g && d in g[k] ensures d in rank && rank[d] < rank[k] {
      var i := FirstIndex(order, k);
      assert d in order[..i];
    }
    assert Ranked(g, rank);
  }

  // ------------------------------------------------------------- cycle check

  /** The recursive visitor inside plan creation, with the two sets it updates.
      `stack` and `order` record the walk being explored and the order in which
      keys were finished. */
  class CycleVisitor {
    const graph: Graph
    var visiting: set<string>
    var visited: set<string>
    ghost var stack: seq<string>
    ghost var order: seq<string>

    ghost predicate Valid()
      reads this
    {
      && Closed(graph)
      && visiting == SetOf(stack) && IsWalk(graph, stack)
      && visiting <= graph.Keys
      && visited == SetOf(order) && DependencyOrder(graph, order)
    }

    constructor (graph: Graph)
      requires Closed(graph)
      ensures Valid() && this.graph == graph
      ensures stack == [] && order == []
    {
      this.graph := graph;
      visiting, visited := {}, {};
      stack, order := [], [];
    }

    /** False stands for the raised "plan dependency cycle". */
    method Visit(key: string) returns (ok: bool)
      requires Valid() && key in graph
      requires stack != [] ==> Edge(graph, stack[|stack| - 1], key)
      modifies this
      ensures ok ==> Valid() && stack == old(stack) && old(order) <= order
      ensures ok ==> old(visited) <= visited && key in visited
      ensures !ok ==> HasCycle(graph)
      decreases graph.Keys - visiting
    {
      if key in visiting {
        ghost var i :| 0 <= i < |stack| && stack[i] == key;
        ghost var p := stack[i..] + [key];
        forall j | 0 <= j < |p| - 1 ensures Edge(graph, p[j], p[j + 1]) {
          if j < |p| - 2 {
            assert Edge(graph, stack[i + j], stack[i + j + 1]);
          }
        }
        assert IsCycle(graph, p);
        return false;
      }
      if key in visited {
        return true;
      }
      visiting := visiting + {key};
      stack := stack + [key];
      ghost var walked := stack;
      var deps := graph[key];
      var i := 0;
      while i < |deps|
        invariant 0 <= i <= |deps|
        invariant Valid() && stack == walked && old(order) <= order && old(visited) <= visited
        invariant forall j | 0 <= j < i :: deps[j] in visited
      {
        ok := Visit(deps[i]);
        if !ok {
          return false;
        }
        i := i + 1;
      }
      visiting := visiting - {key};
      visited := visited + {key};
      ghost var finished := order;
      stack := old(stack);
      order := order + [key];
      assert DependencyOrder(graph, order) by {
        forall j | 0 <= j < |order|
          ensures order[j] in graph && forall d | d in graph[order[j]] :: d in order[..j]
        {
          assert order[..j] == if j < |finished| then finished[..j] else finished;
        }
      }
      return true;
    }
  }

  /** `len(keys) != len(set(keys))` is the uniqueness test. */
  lemma {:induction false} SetSizeCountsDistinct(s: seq<string>)
    ensures |SetOf(s)| <= |s|
    ensures |SetOf(s)| == |s| <==> forall i, j | 0 <= i < j < |s| :: s[i] != s[j]
  {
    if s != [] {
      var front, last := s[..|s| - 1], s[|s| - 1];
      SetSizeCountsDistinct(front);
      assert SetOf(s) == SetOf(front) + {last};
      if last in front {
        assert SetOf(s) == SetOf(front);
      }
    }
  }

  lemma {:induction false} GraphOfStep(steps: seq<PlanStep>, i: nat)
    requires UniqueKeys(steps) && i < |steps|
    ensures steps[i].key in GraphOf(steps)
    ensures GraphOf(steps)[steps[i].key] == steps[i].dependencies
  {
    if i < |steps| - 1 {
      GraphOfStep(steps[..|steps| - 1], i);
    }
  }

  lemma GraphOfClosed(steps: seq<PlanStep>)
    requires UniqueKeys(steps) && ClosedSteps(steps)
    ensures Closed(GraphOf(steps))
  {
    var g := GraphOf(steps);
    forall k, d | k in g && d in g[k] ensures d in g {
      var i :| 0 <= i < |steps| && KeysOf(steps)[i] == k;
      GraphOfStep(steps, i);
      assert steps[i] in steps;
    }
  }

  /** `any(set(s.dependencies) - known for s in steps)` */
  predicate Dangling(steps: seq<PlanStep>, known: set<string>) {
    exists s | s in steps :: SetOf(s.dependencies) - known != {}
  }

  lemma ClosedTest(steps: seq<PlanStep>)
    ensures Dangling(steps, SetOf(KeysOf(steps))) <==> !ClosedSteps(steps)
  {
    var known := SetOf(KeysOf(steps));
    if s :| s in steps && SetOf(s.dependencies) - known != {} {
      var d :| d in SetOf(s.dependencies) - known;
    }
    if s, d :| s in steps && d in s.dependencies && d !in known {
      assert d in SetOf(s.dependencies) - known;
    }
  }

  /** What creation must answer, in the order the checks are made. */
  ghost predicate Accepts(version: int, steps: seq<PlanStep>) {
    version >= 1 && UniqueKeys(steps) && ClosedSteps(steps) && !HasCycle(GraphOf(steps))
  }

  lemma KeyCountTest(steps: seq<PlanStep>)
    ensures |KeysOf(steps)| == |SetOf(KeysOf(steps))| <==> UniqueKeys(steps)
  {
    SetSizeCountsDistinct(KeysOf(steps));
  }

  /** When every key was visited the visitor's order stratifies the graph. */
  lemma VisitedAll(visitor: CycleVisitor, keys: seq<string>)
    requires visitor.Valid() && visitor.graph.Keys == SetOf(keys)
    requires forall j | 0 <= j < |keys| :: keys[j] in visitor.visited
    ensures Stratified(visitor.graph) && !HasCycle(visitor.graph)
  {
    hide IsWalk, Stratified, HasCycle;
    assert visitor.graph.Keys == SetOf(visitor.order);
    DependencyOrderStratifies(visitor.graph, visitor.order);
    StratifiedHasNoCycle(visitor.graph);
  }

  method Create(planId: string, assessmentId: string, version: int, steps: seq<PlanStep>,
                digest: DigestFunction)
    returns (r: Result<ExecutionPlan, PlanError>)
    ensures r.Success? <==> Accepts(version, steps)
    ensures r.Success? ==>
      && Stratified(GraphOf(steps))
      && r.value == ExecutionPlan(planId, assessmentId, version, steps,
                                  digest(assessmentId, version, steps))
    ensures r.Failure? ==>
      match r.error
      case BadVersion => version < 1
      case DuplicateKeys => version >= 1 && !UniqueKeys(steps)
      case UnknownDependency => version >= 1 && UniqueKeys(steps) && !ClosedSteps(steps)
      case DependencyCycle =>
        version >= 1 && UniqueKeys(steps) && ClosedSteps(steps) && HasCycle(GraphOf(steps))
  {
    hide UniqueKeys, ClosedSteps, HasCycle, Stratified, GraphOf, KeysOf, SetOf, Dangling,
         CycleVisitor.Valid, Closed, Edge;
    if version < 1 {
      return Failure(BadVersion);
    }
    var keys := KeysOf(steps);
    KeyCountTest(steps);
    var known := SetOf(keys);
    if |keys| != |known| {
      return Failure(DuplicateKeys);
    }
    ClosedTest(steps);
    if Dangling(steps, known) {
      return Failure(UnknownDependency);
    }
    GraphOfClosed(steps);
    var graph := GraphOf(steps);
    var visitor := new CycleVisitor(graph);
    var i := 0;
    while i < |keys|
      invariant 0 <= i <= |keys|
      invariant visitor.Valid() && visitor.stack == []
      invariant forall j | 0 <= j < i :: keys[j] in visitor.visited
    {
      KeyInGraph(steps, i);
      var ok := visitor.Visit(keys[i]);
      if !ok {
        return Failure(DependencyCycle);
      }
      i := i + 1;
    }
    VisitedAll(visitor, keys);
    return Success(ExecutionPlan(planId, assessmentId, version, steps,
                                 digest(assessmentId, version, steps)));
  }

  lemma KeyInGraph(steps: seq<PlanStep>, i: nat)
    requires i < |KeysOf(steps)|
    ensures KeysOf(steps)[i] in GraphOf(steps)
  {
  }
}
