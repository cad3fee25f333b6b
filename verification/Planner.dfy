/** The planner: from the pinned catalog's required test classes and the logic-test
    cases to a three-tier plan. Its plans are accepted exactly when no two planned
    items coincide, and they always drain well within the round cap. */
module Planning {
  import opened Wrappers
  import opened Plans
  import opened Jobs
  import opened DrainSpec
  import opened Orchestration
  import Execution

  datatype AssetType = WebApp | Api | IpPort | CloudAccount | ContainerK8s {
    function Value(): string {
      match this
      case WebApp => "web_app"
      case Api => "api"
      case IpPort => "ip_port"
      case CloudAccount => "cloud_account"
      case ContainerK8s => "container_k8s"
    }
  }

  datatype RequiredTestClass = RequiredTestClass(
    id: string, cwe: seq<string>, owasp: seq<string>, risk: RiskClass)

  type Mappings = map<AssetType, seq<RequiredTestClass>>

  datatype LogicTestClass = SkipStep | OutOfOrder | Replay | Boundary | InvariantViolation {
    function Value(): string {
      match this
      case SkipStep => "skip_step"
      case OutOfOrder => "out_of_order"
      case Replay => "replay"
      case Boundary => "boundary"
      case InvariantViolation => "invariant_violation"
    }
  }

  datatype LogicTestCase = LogicTestCase(
    testClass: LogicTestClass, appModelDigest: string, target: string, signature: string)

  datatype Item = Item(
    key: string, runner: string, risk: RiskClass, parameters: map<string, Parameter>)

  const DEFAULT_RUNNERS: map<AssetType, string> := map[
    WebApp := "nuclei", Api := "nuclei", IpPort := "nmap",
    CloudAccount := "prowler", ContainerK8s := "trivy"]

  // ------------------------------------------------------------ what to plan

  /** Something the plan owes a step to. */
  datatype Source = Required(asset: AssetType, cls: RequiredTestClass) | Logic(logicCase: LogicTestCase)

  function RequiredFor(catalog: Mappings, a: AssetType): seq<RequiredTestClass> {
    if a in catalog then catalog[a] else []
  }

  function RequiredSources(a: AssetType, classes: seq<RequiredTestClass>): (s: seq<Source>)
    ensures |s| == |classes|
  {
    seq(|classes|, i requires 0 <= i < |classes| => Required(a, classes[i]))
  }

  function CatalogSources(catalog: Mappings, assets: seq<AssetType>): seq<Source> {
    if assets == [] then []
    else
      var last := assets[|assets| - 1];
      CatalogSources(catalog, assets[..|assets| - 1])
        + RequiredSources(last, RequiredFor(catalog, last))
  }

  function LogicSources(cases: seq<LogicTestCase>): (s: seq<Source>)
    ensures |s| == |cases|
  {
    seq(|cases|, i requires 0 <= i < |cases| => Logic(cases[i]))
  }

  function Sources(catalog: Mappings, assets: seq<AssetType>, cases: seq<LogicTestCase>): seq<Source> {
    CatalogSources(catalog, assets) + LogicSources(cases)
  }

  /** Which step a source stands for: two sources clash when this is the same. */
  datatype Identity = RequiredClass(asset: AssetType, id: string)
                    | LogicCase(cls: LogicTestClass, signature: string)

  function ShortSignature(signature: string): string {
    var bare := if "sha256:" <= signature then signature[7..] else signature;
    if |bare| < 12 then bare else bare[..12]
  }

  function IdentityOf(s: Source): Identity {
    match s
    case Required(asset, cls) => RequiredClass(asset, cls.id)
    case Logic(c) => LogicCase(c.testClass, ShortSignature(c.signature))
  }

  ghost predicate NoClash(sources: seq<Source>) {
    forall i, j | 0 <= i < j < |sources| :: IdentityOf(sources[i]) != IdentityOf(sources[j])
  }

  function KeyText(id: Identity): string {
    match id
    case RequiredClass(asset, cls) => asset.Value() + ":" + cls
    case LogicCase(cls, signature) => "logic:" + cls.Value() + ":" + signature
  }

  function RunnerFor(runners: map<AssetType, string>, a: AssetType): string {
    if a in runners then runners[a] else "adapter"
  }

  function ItemOf(runners: map<AssetType, string>, s: Source): Item {
    match s
    case Required(a, cls) =>
      Item(KeyText(IdentityOf(s)), RunnerFor(runners, a), cls.risk,
           map["asset_type" := Text(a.Value()), "test_class" := Text(cls.id),
               "cwe" := Texts(cls.cwe), "owasp" := Texts(cls.owasp)])
    case Logic(c) =>
      Item(KeyText(IdentityOf(s)), "case-engine", Active,
           map["test_class" := Text(c.testClass.Value()), "case_signature" := Text(c.signature),
               "app_model_digest" := Text(c.appModelDigest)])
  }

  lemma SplitAtColon(p: string, x: string, q: string, y: string)
    requires ':' !in p && ':' !in q && p + ":" + x == q + ":" + y
    ensures p == q && x == y
  {
    var s := p + ":" + x;
    assert s[|p|] == ':' && s[|q|] == ':';
    assert |p| == |q|;
    assert s[..|p|] == p && s[..|q|] == q;
    assert s[|p| + 1..] == x && s[|q| + 1..] == y;
  }

  function Head(id: Identity): (h: string)
    ensures ':' !in h
  {
    if id.RequiredClass? then id.asset.Value() else "logic"
  }

  function Tail(id: Identity): string {
    if id.RequiredClass? then id.id else id.cls.Value() + ":" + id.signature
  }

  lemma KeyHeadTail(id: Identity)
    ensures KeyText(id) == Head(id) + ":" + Tail(id)
  {
    if id.LogicCase? {
      assert "logic:" == "logic" + ":";
      assert KeyText(id) == "logic" + ":" + (id.cls.Value() + ":" + id.signature);
    }
  }

  lemma AssetValuesDiffer(a: AssetType, b: AssetType)
    ensures a.Value() == b.Value() ==> a == b
    ensures a.Value() != "logic" && ':' !in a.Value()
  {
    assert |WebApp.Value()| == 7 && |Api.Value()| == 3 && |IpPort.Value()| == 7;
    assert WebApp.Value()[0] == 'w' && IpPort.Value()[0] == 'i';
    assert |CloudAccount.Value()| == 13 && |ContainerK8s.Value()| == 13;
    assert CloudAccount.Value()[1] == 'l' && ContainerK8s.Value()[1] == 'o';
  }

  lemma LogicValuesDiffer(a: LogicTestClass, b: LogicTestClass)
    ensures a.Value() == b.Value() ==> a == b
    ensures ':' !in a.Value()
  {
    assert |SkipStep.Value()| == 9 && |OutOfOrder.Value()| == 12 && |Replay.Value()| == 6;
    assert |Boundary.Value()| == 8 && |InvariantViolation.Value()| == 19;
  }

  /** Step keys name their item: no two items share one. */
  lemma KeysIdentify(a: Identity, b: Identity)
    requires KeyText(a) == KeyText(b)
    ensures a == b
  {
    hide KeyText, AssetType.Value, LogicTestClass.Value;
    KeyHeadTail(a);
    KeyHeadTail(b);
    SplitAtColon(Head(a), Tail(a), Head(b), Tail(b));
    if a.RequiredClass? {
      AssetValuesDiffer(a.asset, if b.RequiredClass? then b.asset else a.asset);
    } else if b.RequiredClass? {
      AssetValuesDiffer(b.asset, b.asset);
    } else {
      LogicValuesDiffer(a.cls, b.cls);
      LogicValuesDiffer(b.cls, b.cls);
      SplitAtColon(a.cls.Value(), a.signature, b.cls.Value(), b.signature);
    }
  }

  // ------------------------------------------------------------------- tiers

  function Tier(risk: RiskClass): nat {
    match risk
    case Passive | Low => 0
    case Active => 1
    case Intrusive | Destructive => 2
  }

  /** The keys of the first n items of a tier, in item order. */
  function TierKeys(items: seq<Item>, tier: nat): seq<string> {
    if items == [] then []
    else
      var last := items[|items| - 1];
      TierKeys(items[..|items| - 1], tier)
        + if Tier(last.risk) == tier then [last.key] else []
  }

  lemma {:induction false} TierKeysMembers(items: seq<Item>, tier: nat)
    ensures forall k :: k in TierKeys(items, tier) <==>
      exists i | 0 <= i < |items| :: items[i].key == k && Tier(items[i].risk) == tier
  {
    if items != [] {
      TierKeysMembers(items[..|items| - 1], tier);
    }
  }

  /** Reconnaissance first: a step waits for every item of every lower tier. */
  function StepOf(items: seq<Item>, i: nat): PlanStep
    requires i < |items|
  {
    var deps :=
      if Tier(items[i].risk) == 0 then []
      else if Tier(items[i].risk) == 1 then TierKeys(items, 0)
      else TierKeys(items, 0) + TierKeys(items, 1);
    PlanStep(items[i].key, items[i].runner, items[i].risk, items[i].parameters, deps)
  }

  ghost predicate PlannedSteps(items: seq<Item>, steps: seq<PlanStep>) {
    |steps| == |items| && forall i | 0 <= i < |items| :: steps[i] == StepOf(items, i)
  }

  /** A step depends on a key exactly if some item of a lower tier has it. */
  lemma DependsOnLowerTiers(items: seq<Item>, steps: seq<PlanStep>, i: nat, d: string)
    requires PlannedSteps(items, steps) && i < |steps|
    ensures d in steps[i].dependencies
       <==> exists j | 0 <= j < |items| ::
              items[j].key == d && Tier(items[j].risk) < Tier(items[i].risk)
  {
    assert steps[i] == StepOf(items, i);
    TierKeysMembers(items, 0);
    TierKeysMembers(items, 1);
    if j :| 0 <= j < |items| && items[j].key == d && Tier(items[j].risk) < Tier(items[i].risk) {
      assert d in TierKeys(items, Tier(items[j].risk));
    }
  }

  /** The risk of what is planned: that of the required class; logic cases are active. */
  function RiskAsked(s: Source): RiskClass {
    match s
    case Required(_, cls) => cls.risk
    case Logic(_) => Active
  }

  /** Active steps wait for the passive and low ones, intrusive and destructive ones
      also for the active. */
  predicate WaitsFor(risk: RiskClass, other: RiskClass) {
    || (risk == Active && (other == Passive || other == Low))
    || ((risk == Intrusive || risk == Destructive)
        && (other == Passive || other == Low || other == Active))
  }

  /** The order of a planner plan by risk class: a step depends on exactly the keys of
      the steps that its risk waits for. */
  lemma StepsWaitByRisk(runners: map<AssetType, string>, sources: seq<Source>, items: seq<Item>,
                        steps: seq<PlanStep>, i: nat, d: string)
    requires |items| == |sources| && PlannedSteps(items, steps) && i < |steps|
    requires forall j | 0 <= j < |items| :: items[j] == ItemOf(runners, sources[j])
    ensures forall j | 0 <= j < |steps| :: steps[j].risk == RiskAsked(sources[j])
    ensures d in steps[i].dependencies
       <==> exists j | 0 <= j < |steps| ::
              steps[j].key == d && WaitsFor(steps[i].risk, steps[j].risk)
  {
    hide WaitsFor, TierKeys, KeyText, IdentityOf;
    DependsOnLowerTiers(items, steps, i, d);
    forall j | 0 <= j < |steps|
      ensures steps[j].key == items[j].key && steps[j].risk == items[j].risk == RiskAsked(sources[j])
      ensures WaitsFor(steps[i].risk, steps[j].risk) <==> Tier(items[j].risk) < Tier(items[i].risk)
    {
      assert steps[j] == StepOf(items, j) && steps[i] == StepOf(items, i);
      WaitsForIsTier(items[i].risk, items[j].risk);
    }
  }

  /** Each step names what it was planned for, and nothing else. */
  lemma StepsNameTheirSource(runners: map<AssetType, string>, sources: seq<Source>, items: seq<Item>,
                             steps: seq<PlanStep>, i: nat)
    requires |items| == |sources| && PlannedSteps(items, steps) && i < |steps|
    requires forall j | 0 <= j < |items| :: items[j] == ItemOf(runners, sources[j])
    ensures
      match sources[i]
      case Required(asset, cls) =>
        && steps[i].key == asset.Value() + ":" + cls.id
        && steps[i].runner == (if asset in runners then runners[asset] else "adapter")
        && steps[i].parameters
           == map["asset_type" := Text(asset.Value()), "test_class" := Text(cls.id),
                  "cwe" := Texts(cls.cwe), "owasp" := Texts(cls.owasp)]
      case Logic(c) =>
        && steps[i].runner == "case-engine"
        && steps[i].parameters
           == map["test_class" := Text(c.testClass.Value()), "case_signature" := Text(c.signature),
                  "app_model_digest" := Text(c.appModelDigest)]
  {
    assert steps[i] == StepOf(items, i);
  }

  lemma WaitsForIsTier(risk: RiskClass, other: RiskClass)
    ensures WaitsFor(risk, other) <==> Tier(other) < Tier(risk)
  {
  }

  lemma PlannedAreClosed(items: seq<Item>, steps: seq<PlanStep>)
    requires PlannedSteps(items, steps)
    ensures ClosedSteps(steps)
  {
    forall s, d | s in steps && d in s.dependencies ensures d in SetOf(KeysOf(steps)) {
      var i :| 0 <= i < |steps| && steps[i] == s;
      DependsOnLowerTiers(items, steps, i, d);
      var j :| 0 <= j < |items| && items[j].key == d;
      assert KeysOf(steps)[j] == StepOf(items, j).key == d;
    }
  }

  ghost function TierRank(steps: seq<PlanStep>): map<string, nat> {
    map k | k in GraphOf(steps) :: Tier(steps[FirstIndex(KeysOf(steps), k)].risk)
  }

  lemma StepAt(steps: seq<PlanStep>, i: nat)
    requires UniqueKeys(steps) && i < |steps|
    ensures steps[i].key in GraphOf(steps)
    ensures TierRank(steps)[steps[i].key] == Tier(steps[i].risk)
    ensures GraphOf(steps)[steps[i].key] == steps[i].dependencies
  {
    hide GraphOf;
    GraphOfStep(steps, i);
    assert KeysOf(steps)[i] == steps[i].key;
    assert FirstIndex(KeysOf(steps), steps[i].key) == i;
  }

  lemma EdgeDescends(items: seq<Item>, steps: seq<PlanStep>, i: nat, d: string)
    requires PlannedSteps(items, steps) && UniqueKeys(steps)
    requires i < |steps| && d in steps[i].dependencies
    ensures d in GraphOf(steps) && TierRank(steps)[d] < Tier(items[i].risk)
  {
    hide GraphOf, TierRank, UniqueKeys;
    DependsOnLowerTiers(items, steps, i, d);
    var j :| 0 <= j < |items| && items[j].key == d && Tier(items[j].risk) < Tier(items[i].risk);
    assert steps[j] == StepOf(items, j);
    StepAt(steps, j);
  }

  lemma KeyDescends(items: seq<Item>, steps: seq<PlanStep>, k: string, d: string)
    requires PlannedSteps(items, steps) && UniqueKeys(steps)
    requires k in GraphOf(steps) && d in GraphOf(steps)[k]
    ensures d in TierRank(steps) && k in TierRank(steps) && TierRank(steps)[d] < TierRank(steps)[k]
  {
    hide GraphOf, TierRank, UniqueKeys, StepOf;
    RankKeys(steps);
    var i :| 0 <= i < |steps| && KeysOf(steps)[i] == k;
    StepAt(steps, i);
    EdgeDescends(items, steps, i, d);
    assert steps[i] == StepOf(items, i);
    RiskOf(items, i);
  }

  lemma RiskOf(items: seq<Item>, i: nat)
    requires i < |items|
    ensures StepOf(items, i).risk == items[i].risk
  {
  }

  lemma TierRanks(items: seq<Item>, steps: seq<PlanStep>)
    requires PlannedSteps(items, steps) && UniqueKeys(steps)
    ensures Ranked(GraphOf(steps), TierRank(steps))
  {
    hide GraphOf, TierRank, UniqueKeys, PlannedSteps;
    var g, rank := GraphOf(steps), TierRank(steps);
    RankKeys(steps);
    forall k, d | k in g && d in g[k] ensures d in rank && rank[d] < rank[k] {
      KeyDescends(items, steps, k, d);
    }
  }

  lemma RankKeys(steps: seq<PlanStep>)
    ensures TierRank(steps).Keys == GraphOf(steps).Keys
  {
  }

  lemma KeysDistinct(runners: map<AssetType, string>, sources: seq<Source>, steps: seq<PlanStep>)
    requires |steps| == |sources|
    requires forall i | 0 <= i < |steps| :: steps[i].key == ItemOf(runners, sources[i]).key
    ensures UniqueKeys(steps) <==> NoClash(sources)
  {
    hide KeyText, IdentityOf;
    forall i | 0 <= i < |steps| ensures steps[i].key == KeyText(IdentityOf(sources[i])) {
    }
    forall i, j | 0 <= i < j < |steps|
      ensures steps[i].key == steps[j].key <==> IdentityOf(sources[i]) == IdentityOf(sources[j])
    {
      if steps[i].key == steps[j].key {
        KeysIdentify(IdentityOf(sources[i]), IdentityOf(sources[j]));
      }
    }
  }

  // ----------------------------------------------------------------- planner

  class Planner {
    const catalog: Mappings
    const runners: map<AssetType, string>

    constructor (catalog: Mappings, runnerMap: map<AssetType, string>)
      ensures this.catalog == catalog && runners == DEFAULT_RUNNERS + runnerMap
    {
      this.catalog := catalog;
      runners := DEFAULT_RUNNERS + runnerMap;
    }

    method CollectItems(assets: seq<AssetType>, cases: seq<LogicTestCase>) returns (items: seq<Item>)
      ensures |items| == |Sources(catalog, assets, cases)|
      ensures forall i | 0 <= i < |items| ::
        items[i] == ItemOf(runners, Sources(catalog, assets, cases)[i])
    {
      hide ItemOf, Sources, AreItems, RequiredSources, RequiredFor, LogicSources;
      NoItems();
      items := [];
      for a := 0 to |assets|
        invariant AreItems(items, CatalogSources(catalog, assets[..a]))
      {
        assert assets[..a + 1][..a] == assets[..a];
        var more := RequiredItems(assets[a]);
        MoreItems(items, more, CatalogSources(catalog, assets[..a]),
                  RequiredSources(assets[a], RequiredFor(catalog, assets[a])));
        items := items + more;
      }
      assert assets[..|assets|] == assets;
      var more := LogicItems(cases);
      MoreItems(items, more, CatalogSources(catalog, assets), LogicSources(cases));
      SourcesAre(assets, cases);
      items := items + more;
      ItemsAre(items, Sources(catalog, assets, cases));
    }

    lemma SourcesAre(assets: seq<AssetType>, cases: seq<LogicTestCase>)
      ensures Sources(catalog, assets, cases) == CatalogSources(catalog, assets) + LogicSources(cases)
    {
    }

    ghost predicate AreItems(items: seq<Item>, sources: seq<Source>) {
      && |items| == |sources|
      && forall i | 0 <= i < |items| :: items[i] == ItemOf(runners, sources[i])
    }

    lemma NoItems()
      ensures AreItems([], [])
    {
    }

    lemma ItemsAre(items: seq<Item>, sources: seq<Source>)
      requires AreItems(items, sources)
      ensures |items| == |sources|
      ensures forall i | 0 <= i < |items| :: items[i] == ItemOf(runners, sources[i])
    {
    }

    lemma MoreItems(items: seq<Item>, more: seq<Item>, sources: seq<Source>, others: seq<Source>)
      requires AreItems(items, sources) && AreItems(more, others)
      ensures AreItems(items + more, sources + others)
    {
      hide ItemOf;
    }

    /** The items of one asset type's required classes. */
    method RequiredItems(a: AssetType) returns (items: seq<Item>)
      ensures AreItems(items, RequiredSources(a, RequiredFor(catalog, a)))
    {
      hide ItemOf;
      items := [];
      var required := RequiredFor(catalog, a);
      for c := 0 to |required|
        invariant |items| == c
        invariant forall i | 0 <= i < c :: items[i] == ItemOf(runners, Required(a, required[i]))
      {
        items := items + [ItemOf(runners, Required(a, required[c]))];
      }
    }

    method LogicItems(cases: seq<LogicTestCase>) returns (items: seq<Item>)
      ensures AreItems(items, LogicSources(cases))
    {
      hide ItemOf;
      items := [];
      for c := 0 to |cases|
        invariant |items| == c
        invariant forall i | 0 <= i < c :: items[i] == ItemOf(runners, Logic(cases[i]))
      {
        items := items + [ItemOf(runners, Logic(cases[c]))];
      }
    }

    /** Nothing required is left out and nothing is added: one step per required
        class of every listed asset type and per logic case. The plan is refused
        only for its version or because two sources name the same step. */
    method Generate(planId: string, assessmentId: string, assets: seq<AssetType>,
                    cases: seq<LogicTestCase>, version: int, digest: DigestFunction)
      returns (r: Result<ExecutionPlan, PlanError>, ghost items: seq<Item>)
      ensures |items| == |Sources(catalog, assets, cases)|
      ensures forall i | 0 <= i < |items| ::
        items[i] == ItemOf(runners, Sources(catalog, assets, cases)[i])
      ensures r.Success? <==> version >= 1 && NoClash(Sources(catalog, assets, cases))
      ensures r.Failure? ==> r.error == if version < 1 then BadVersion else DuplicateKeys
      ensures r.Success? ==>
        && PlannedSteps(items, r.value.steps) && UniqueKeys(r.value.steps)
        && r.value == ExecutionPlan(planId, assessmentId, version, r.value.steps,
                                    digest(assessmentId, version, r.value.steps))
    {
      hide ItemOf, StepOf, Accepts, GraphOf, Sources, UniqueKeys, NoClash, ClosedSteps, HasCycle;
      var planned := CollectItems(assets, cases);
      items := planned;
      var recon, active := [], [];
      for i := 0 to |planned|
        invariant recon == TierKeys(planned[..i], 0) && active == TierKeys(planned[..i], 1)
      {
        assert planned[..i + 1][..i] == planned[..i];
        match planned[i].risk
        case Passive | Low => recon := recon + [planned[i].key];
        case Active => active := active + [planned[i].key];
        case _ =>
      }
      assert planned[..|planned|] == planned;
      var steps := [];
      for i := 0 to |planned|
        invariant |steps| == i && forall k | 0 <= k < i :: steps[k] == StepOf(planned, k)
      {
        var deps := match planned[i].risk
          case Passive | Low => []
          case Active => recon
          case _ => recon + active;
        StepIs(planned, i, deps);
        steps := steps + [PlanStep(planned[i].key, planned[i].runner, planned[i].risk,
                                   planned[i].parameters, deps)];
      }
      PlannedAccepted(runners, Sources(catalog, assets, cases), planned, steps, version);
      r := Create(planId, assessmentId, version, steps, digest);
    }
  }

  lemma StepIs(items: seq<Item>, i: nat, deps: seq<string>)
    requires i < |items|
    requires deps == match items[i].risk
      case Passive | Low => []
      case Active => TierKeys(items, 0)
      case _ => TierKeys(items, 0) + TierKeys(items, 1)
    ensures StepOf(items, i)
         == PlanStep(items[i].key, items[i].runner, items[i].risk, items[i].parameters, deps)
  {
  }

  lemma PlannedAccepted(runners: map<AssetType, string>, sources: seq<Source>, items: seq<Item>,
                        steps: seq<PlanStep>, version: int)
    requires |items| == |sources| && PlannedSteps(items, steps)
    requires forall i | 0 <= i < |items| :: items[i] == ItemOf(runners, sources[i])
    ensures UniqueKeys(steps) <==> NoClash(sources)
    ensures Accepts(version, steps) <==> version >= 1 && NoClash(sources)
    ensures ClosedSteps(steps) && (UniqueKeys(steps) ==> !HasCycle(GraphOf(steps)))
  {
    hide ItemOf, GraphOf, ClosedSteps, UniqueKeys, NoClash, HasCycle;
    forall i | 0 <= i < |steps| ensures steps[i].key == ItemOf(runners, sources[i]).key {
      assert steps[i] == StepOf(items, i);
    }
    KeysDistinct(runners, sources, steps);
    PlannedAreClosed(items, steps);
    if UniqueKeys(steps) {
      TierRanks(items, steps);
      StratifiedHasNoCycle(GraphOf(steps));
    }
  }

  // ------------------------------------------------------------------- depth

  lemma {:induction false} DeepestWithinRank(g: Graph, rank: map<string, nat>, k: string, n: nat)
    requires Stratified(g) && Ranked(g, rank) && k in g && n <= |g[k]|
    ensures DeepestOf(g, k, n) <= rank[k]
    decreases RankOf(g)[k], n
  {
    hide Stratified;
    if n > 0 {
      DeepestWithinRank(g, rank, k, n - 1);
      DepthWithinRank(g, rank, g[k][n - 1]);
    }
  }

  /** Any rank bounds the length of the dependency chains. */
  lemma {:induction false} DepthWithinRank(g: Graph, rank: map<string, nat>, k: string)
    requires Stratified(g) && Ranked(g, rank) && k in g
    ensures Depth(g, k) <= rank[k] + 1
    decreases RankOf(g)[k], |g[k]| + 1
  {
    DeepestWithinRank(g, rank, k, |g[k]|);
  }

  /** A planner plan has chains of at most three steps, so whatever its steps do it
      is drained after nine rounds: the default cap of a hundred never bites. */
  lemma PlannerPlansDrain(items: seq<Item>, steps: seq<PlanStep>, run: Outcomes, rounds: nat)
    requires PlannedSteps(items, steps) && UniqueKeys(steps)
    requires rounds >= 9
    ensures Stratified(GraphOf(steps))
    ensures forall k | k in GraphOf(steps) :: Depth(GraphOf(steps), k) <= 3
    ensures DoneBy(GraphOf(steps), run, rounds)
  {
    hide Depth, GraphOf, DoneBy, UniqueKeys, PlannedSteps;
    var g := GraphOf(steps);
    TierRanks(items, steps);
    assert Stratified(g);
    forall k | k in g ensures Depth(g, k) <= 3 {
      DepthWithinRank(g, TierRank(steps), k);
      TierRankSmall(steps, k);
    }
    Execution.CapIsEnough(g, run, 3, rounds);
  }

  lemma TierRankSmall(steps: seq<PlanStep>, k: string)
    requires k in GraphOf(steps)
    ensures k in TierRank(steps) && TierRank(steps)[k] <= 2
  {
  }

  /** The whole way of a planner plan: generated, then drained by any number of
      executors under any gates. If the last drain ends unstopped with a cap of ten
      rounds or more, far below the default of a hundred, the job table is the
      plan's recursive evaluation. */
  method GenerateAndRun(planner: Planner, planId: string, assessmentId: string,
                        assets: seq<AssetType>, cases: seq<LogicTestCase>, version: int,
                        digest: DigestFunction, store: MemoryJobStore, runner: StepRunner,
                        sessions: seq<Execution.Session>)
    returns (r: Result<ExecutionPlan, PlanError>, statuses: seq<RunStatus>)
    requires store.Valid() && Execution.Untouched(store.View(), runner.calls)
    requires sessions != [] && forall s | s in sessions :: s.maxWorkers >= 1
    modifies store, runner
    ensures store.Valid()
    ensures r.Success? <==> version >= 1 && NoClash(Sources(planner.catalog, assets, cases))
    ensures r.Failure? ==> store.View() == old(store.View()) && statuses == []
    ensures r.Success? ==>
      && Stratified(GraphOf(r.value.steps)) && |statuses| == |sessions|
      && (statuses[|statuses| - 1] == RunCompleted
          && sessions[|sessions| - 1].maxRounds >= 10 ==>
            Execution.Evaluated(GraphOf(r.value.steps), r.value.digest, runner.outcomes, store.View()))
  {
    hide *;
    statuses := [];
    ghost var items;
    r, items := planner.Generate(planId, assessmentId, assets, cases, version, digest);
    if r.Failure? {
      return;
    }
    var plan := r.value;
    PlannerPlansDrain(items, plan.steps, runner.outcomes, 9);
    statuses := Execution.RunSessions(plan, store, runner, sessions);
    var maxRounds := sessions[|sessions| - 1].maxRounds;
    if maxRounds >= 10 {
      PlannerPlansDrain(items, plan.steps, runner.outcomes, maxRounds - 1);
      EnoughRoundsFor(plan, runner.outcomes, maxRounds);
    }
  }

  lemma EnoughRoundsFor(plan: ExecutionPlan, run: Outcomes, maxRounds: nat)
    requires Stratified(GraphOf(plan.steps)) && maxRounds > 0
    requires DoneBy(GraphOf(plan.steps), run, maxRounds - 1)
    ensures Execution.EnoughFor(plan, run, maxRounds)
  {
  }
}
