/** The chain engine: template matching with link binding over validated findings,
    and the pending verification tasks of the links left unbound. Every chain and
    every pending link gets an id never related to an earlier one. */
module ChainEngines {
  import opened Wrappers
  import opened ChainTemplates

  datatype ChainStatus = Hypothesis | PartiallyVerified | Confirmed

  datatype ChainLink = ChainLink(confirmedFindingId: string, pendingKey: string) {
    predicate IsConfirmed() {
      confirmedFindingId != ""
    }
  }

  datatype AttackChain = AttackChain(
    id: string, templateId: string, links: seq<ChainLink>, status: ChainStatus, severity: Severity)

  datatype Task = Task(key: string, chainId: string, requiredCwe: seq<string>, assetHint: string)

  /** A chain and a template with the same id have different lengths. */
  datatype ChainError = LengthMismatch

  function Validated(fs: seq<Finding>): seq<Finding> {
    if fs == [] then []
    else Validated(fs[..|fs| - 1]) + if fs[|fs| - 1].validated then [fs[|fs| - 1]] else []
  }

  lemma {:induction false} ValidatedMembers(fs: seq<Finding>)
    ensures forall f :: f in Validated(fs) <==> f in fs && f.validated
  {
    if fs != [] {
      ValidatedMembers(fs[..|fs| - 1]);
      assert fs == fs[..|fs| - 1] + [fs[|fs| - 1]];
    }
  }

  // ------------------------------------------------------------------- severity

  /** The last finding of each id, as a dictionary built from the list keeps it. */
  function ById(fs: seq<Finding>): (m: map<string, Finding>)
    ensures forall f | f in fs :: f.id in m
  {
    if fs == [] then map[] else ById(fs[..|fs| - 1])[fs[|fs| - 1].id := fs[|fs| - 1]]
  }

  function ConfirmedSeverities(links: seq<ChainLink>, byId: map<string, Finding>): seq<Severity> {
    if links == [] then []
    else
      var last := links[|links| - 1];
      ConfirmedSeverities(links[..|links| - 1], byId)
        + if last.IsConfirmed() && last.confirmedFindingId in byId
          then [byId[last.confirmedFindingId].severity] else []
  }

  function CompositeSeverity(ss: seq<Severity>): Severity {
    if ss == [] then Info
    else
      var before, last := CompositeSeverity(ss[..|ss| - 1]), ss[|ss| - 1];
      if before.Rank() < last.Rank() then last else before
  }

  /** INFO, LOW, MEDIUM, HIGH, CRITICAL, from the lowest to the highest. */
  predicate Outranks(a: Severity, b: Severity) {
    match b
    case Info => a != Info
    case Low => a != Info && a != Low
    case Medium => a == High || a == Critical
    case High => a == Critical
    case Critical => false
  }

  lemma {:induction false} CompositeIsHighest(ss: seq<Severity>)
    ensures forall s | s in ss :: !Outranks(s, CompositeSeverity(ss))
    ensures ss != [] ==> CompositeSeverity(ss) in ss
  {
    if ss != [] {
      var front, last := ss[..|ss| - 1], ss[|ss| - 1];
      CompositeIsHighest(front);
      assert ss == front + [last];
      assert front == [] ==> CompositeSeverity(front) == Info;
    }
  }

  ghost predicate DistinctFindings(fs: seq<Finding>) {
    forall i, j | 0 <= i < j < |fs| :: fs[i].id != fs[j].id
  }

  lemma {:induction false} ByOwnId(fs: seq<Finding>, i: nat)
    requires DistinctFindings(fs) && i < |fs|
    ensures fs[i].id in ById(fs) && ById(fs)[fs[i].id] == fs[i]
  {
    if i < |fs| - 1 {
      ByOwnId(fs[..|fs| - 1], i);
    }
  }

  /** The severities, link by link, of what was bound. */
  lemma {:induction false} SeverityMembers(links: seq<ChainLink>, byId: map<string, Finding>)
    ensures forall s :: s in ConfirmedSeverities(links, byId) <==>
      exists i | 0 <= i < |links| :: links[i].IsConfirmed()
        && links[i].confirmedFindingId in byId && byId[links[i].confirmedFindingId].severity == s
  {
    if links != [] {
      SeverityMembers(links[..|links| - 1], byId);
    }
  }

  /** With distinct finding ids the severity of a chain is the highest among the
      findings its links are bound to. */
  lemma SeverityIsHighestBound(t: AttackChainTemplate, fs: seq<Finding>, c: AttackChain)
    requires t.Valid() && ChainOf(t, fs, c) && DistinctFindings(fs)
    requires exists i :: 0 <= i < |c.links| && c.links[i].IsConfirmed()
    ensures
      var bound := Bindings(t.links, fs, 0);
      && (forall i | 0 <= i < |bound| && bound[i].Some? ::
            bound[i].value < |fs| && !Outranks(fs[bound[i].value].severity, c.severity))
      && exists i :: 0 <= i < |bound| && bound[i].Some? && bound[i].value < |fs|
           && fs[bound[i].value].severity == c.severity
  {
    hide Fits, Matches, StartFits, Bindings, DistinctFindings, Outranks, CompositeSeverity,
         ConfirmedSeverities, ById;
    var bound := Bindings(t.links, fs, 0);
    var ss := ConfirmedSeverities(c.links, ById(fs));
    SeverityMembers(c.links, ById(fs));
    CompositeIsHighest(ss);
    forall i | 0 <= i < |bound| && bound[i].Some?
      ensures fs[bound[i].value].severity in ss
      ensures ById(fs)[c.links[i].confirmedFindingId] == fs[bound[i].value]
    {
      ByOwnId(fs, bound[i].value);
    }
    var i :| 0 <= i < |c.links| && c.links[i].IsConfirmed();
    assert bound[i].Some?;
    assert ss != [];
    var j :| 0 <= j < |c.links| && c.links[j].IsConfirmed()
      && c.links[j].confirmedFindingId in ById(fs)
      && ById(fs)[c.links[j].confirmedFindingId].severity == c.severity;
    assert bound[j].Some?;
  }

  // -------------------------------------------------------------- what a match is

  /** The links of a chain over `fs` are bound as greed binds them. */
  ghost predicate BoundAs(bound: seq<Option<nat>>, fs: seq<Finding>, links: seq<ChainLink>) {
    && |links| == |bound|
    && forall i | 0 <= i < |bound| ::
         if bound[i].Some?
         then bound[i].value < |fs| && links[i].IsConfirmed()
              && links[i].confirmedFindingId == fs[bound[i].value].id
         else !links[i].IsConfirmed()
  }

  ghost predicate AnyFits(t: AttackChainTemplate, fs: seq<Finding>) {
    exists l, f :: l in t.links && f in fs && Fits(l, f)
  }

  ghost predicate StartFits(t: AttackChainTemplate, fs: seq<Finding>)
    requires t.Valid()
  {
    exists f :: f in fs && Fits(t.links[0], f)
  }

  /** The chain of a template over findings, up to its ids. */
  ghost predicate ChainOf(t: AttackChainTemplate, fs: seq<Finding>, c: AttackChain)
    requires t.Valid()
  {
    && c.templateId == t.id
    && BoundAs(Bindings(t.links, fs, 0), fs, c.links)
    && c.status == (if Matches(t.links, fs) then Confirmed
                    else if StartFits(t, fs) then PartiallyVerified
                    else Hypothesis)
    && c.severity == CompositeSeverity(ConfirmedSeverities(c.links, ById(fs)))
  }

  /** What a chain says of the findings, down to the characters: when there is one, and
      its status. */
  ghost predicate ChainTells(t: AttackChainTemplate, fs: seq<Finding>, r: Option<AttackChain>)
    requires t.Valid()
  {
    && (r.Some? <==> exists l, f :: l in t.links && f in fs && SharesAndOccurs(l, f))
    && (r.Some? ==>
          && (r.value.status == Confirmed <==> exists at :: LaidOver(t.links, fs, at))
          && (r.value.status == Hypothesis <==>
                && !(exists at :: LaidOver(t.links, fs, at))
                && forall f | f in fs :: !SharesAndOccurs(t.links[0], f)))
  }

  lemma ChainIsTold(t: AttackChainTemplate, fs: seq<Finding>, r: Option<AttackChain>)
    requires t.Valid() && (r.Some? <==> AnyFits(t, fs)) && (r.Some? ==> ChainOf(t, fs, r.value))
    ensures ChainTells(t, fs, r)
  {
    hide Fits, SharesAndOccurs, LaidOver, Matches, BoundAs, Bindings;
    MatchIs(t.links, fs);
    forall l, f ensures Fits(l, f) <==> SharesAndOccurs(l, f) {
      FitsIs(l, f);
    }
  }

  lemma AnyBound(t: AttackChainTemplate, fs: seq<Finding>)
    ensures AnyFits(t, fs) <==> SomeBound(Bindings(t.links, fs, 0))
  {
    hide Fits, SomeBound, Bindings;
    SomethingBound(t.links, fs, 0);
    if AnyFits(t, fs) {
      var l, f :| l in t.links && f in fs && Fits(l, f);
      var i :| 0 <= i < |t.links| && t.links[i] == l;
      var j :| 0 <= j < |fs| && fs[j] == f;
      assert Fits(t.links[i], fs[j]);
    }
    if SomeFits(t.links, fs, 0) {
      var i, j :| 0 <= i < |t.links| && 0 <= j < |fs| && Fits(t.links[i], fs[j]);
      assert t.links[i] in t.links && fs[j] in fs;
    }
  }

  lemma StartBound(t: AttackChainTemplate, fs: seq<Finding>)
    requires t.Valid()
    ensures Bindings(t.links, fs, 0)[0].Some? <==> StartFits(t, fs)
  {
    var first := FirstFit(t.links[0], fs, 0);
    assert Bindings(t.links, fs, 0)[0] == first;
    if first.Some? {
      assert fs[first.value] in fs;
    }
  }

  ghost predicate Backs(spec: ChainLinkSpec, f: Finding, link: ChainLink) {
    f.validated && f.id == link.confirmedFindingId && SharesAndOccurs(spec, f)
  }

  /** Confirmed findings of a chain are validated, fit their links and follow each
      other in the order of the findings. */
  lemma ConfirmedLinksAreBacked(t: AttackChainTemplate, fs: seq<Finding>, c: AttackChain, i: nat, j: nat)
    requires t.Valid() && ChainOf(t, Validated(fs), c)
    requires i < j < |c.links| && c.links[i].IsConfirmed() && c.links[j].IsConfirmed()
    ensures exists m, n | 0 <= m < n < |Validated(fs)| ::
      Backs(t.links[i], Validated(fs)[m], c.links[i]) && Backs(t.links[j], Validated(fs)[n], c.links[j])
  {
    hide Fits, SharesAndOccurs, Matches, StartFits, Bindings;
    var vs := Validated(fs);
    BindingsAreSound(t.links, vs, 0);
    ValidatedMembers(fs);
    var m, n := Bindings(t.links, vs, 0)[i].value, Bindings(t.links, vs, 0)[j].value;
    assert vs[m] in vs && vs[n] in vs;
    FitsIs(t.links[i], vs[m]);
    FitsIs(t.links[j], vs[n]);
    assert Backs(t.links[i], vs[m], c.links[i]) && Backs(t.links[j], vs[n], c.links[j]);
  }

  // ----------------------------------------------------------------- many chains

  /** The templates that yield a chain, in order. */
  ghost function Yielding(ts: seq<AttackChainTemplate>, fs: seq<Finding>): seq<AttackChainTemplate> {
    if ts == [] then []
    else
      var last := ts[|ts| - 1];
      Yielding(ts[..|ts| - 1], fs) + if AnyFits(last, fs) then [last] else []
  }

  ghost predicate ChainsOf(ts: seq<AttackChainTemplate>, fs: seq<Finding>, cs: seq<AttackChain>) {
    && |cs| == |ts| && forall i | 0 <= i < |ts| :: ts[i].Valid() && ChainOf(ts[i], fs, cs[i])
  }

  lemma {:induction false} YieldingMembers(ts: seq<AttackChainTemplate>, fs: seq<Finding>)
    ensures forall t :: t in Yielding(ts, fs) <==> t in ts && AnyFits(t, fs)
  {
    if ts != [] {
      YieldingMembers(ts[..|ts| - 1], fs);
      assert ts == ts[..|ts| - 1] + [ts[|ts| - 1]];
    }
  }

  // ------------------------------------------------------------------------ tasks

  function FirstWith(ts: seq<AttackChainTemplate>, id: string): (r: Option<AttackChainTemplate>)
    ensures r.Some? ==> r.value in ts && r.value.id == id
    ensures r.None? ==> forall t | t in ts :: t.id != id
  {
    if ts == [] then None
    else if ts[0].id == id then Some(ts[0])
    else FirstWith(ts[1..], id)
  }

  ghost predicate DistinctIds(ts: seq<AttackChainTemplate>) {
    forall i, j | 0 <= i < j < |ts| :: ts[i].id != ts[j].id
  }

  lemma {:induction false} FirstWithOwnId(ts: seq<AttackChainTemplate>, t: AttackChainTemplate)
    requires t in ts && DistinctIds(ts)
    ensures FirstWith(ts, t.id) == Some(t)
  {
    if ts[0] != t {
      var i :| 0 < i < |ts| && ts[i] == t;
      FirstWithOwnId(ts[1..], t);
    }
  }

  /** The tasks of the first n links. */
  function TasksUpTo(c: AttackChain, specs: seq<ChainLinkSpec>, n: nat): seq<Task>
    requires n <= |c.links| == |specs|
  {
    if n == 0 then []
    else
      TasksUpTo(c, specs, n - 1)
        + if c.links[n - 1].IsConfirmed() then []
          else [Task(c.links[n - 1].pendingKey, c.id, specs[n - 1].cweAny, specs[n - 1].assetPattern)]
  }

  function TasksOf(ts: seq<AttackChainTemplate>, c: AttackChain): Result<seq<Task>, ChainError> {
    var t := FirstWith(ts, c.templateId);
    if t.None? then Success([])
    else if |t.value.links| != |c.links| then Failure(LengthMismatch)
    else Success(TasksUpTo(c, t.value.links, |c.links|))
  }

  function AllTasks(ts: seq<AttackChainTemplate>, cs: seq<AttackChain>): Result<seq<Task>, ChainError> {
    if cs == [] then Success([])
    else
      var before := AllTasks(ts, cs[..|cs| - 1]);
      var last := TasksOf(ts, cs[|cs| - 1]);
      if before.Failure? then before
      else if last.Failure? then last
      else Success(before.value + last.value)
  }

  // ----------------------------------------------------------------------- engine

  /** Where new ids come from: any stream of texts, never rewound. */
  class IdSource {
    const draws: nat -> string
    var drawn: nat

    constructor (draws: nat -> string)
      ensures this.draws == draws && drawn == 0
    {
      this.draws, drawn := draws, 0;
    }

    method Draw() returns (id: string)
      modifies this
      ensures id == draws(old(drawn)) && drawn == old(drawn) + 1
    {
      id := draws(drawn);
      drawn := drawn + 1;
    }
  }

  class ChainEngine {
    const templates: seq<AttackChainTemplate>
    const ids: IdSource

    ghost predicate Valid() {
      forall t | t in templates :: t.Valid()
    }

    constructor (templates: seq<AttackChainTemplate>, ids: IdSource)
      requires forall t | t in templates :: t.Valid()
      ensures Valid() && this.templates == templates && this.ids == ids
    {
      this.templates, this.ids := templates, ids;
    }

    /** None when no link fits any finding; otherwise the chain, CONFIRMED exactly
        when the template's matcher says yes. */
    method MatchTemplate(t: AttackChainTemplate, fs: seq<Finding>) returns (r: Option<AttackChain>)
      requires t.Valid() && forall f | f in fs :: f.Valid()
      modifies ids
      ensures r.Some? <==> AnyFits(t, fs)
      ensures r.Some? ==> ChainOf(t, fs, r.value)
      ensures ChainTells(t, fs, r)
    {
      hide ChainTells, Fits, Matches, Embeds, StartFits, AnyFits, Bindings, AllBound, SomeBound, FirstFit, BoundAs,
           ConfirmedSeverities, CompositeSeverity, ById;
      var links: seq<ChainLink> := [];
      var position: nat, matchedAny := 0, false;
      ghost var bound: seq<Option<nat>> := [];
      assert t.links[0..] == t.links;
      NothingYet(fs);
      for k := 0 to |t.links|
        invariant position <= |fs|
        invariant BoundAs(bound, fs, links) && |links| == k
        invariant matchedAny <==> SomeBound(bound)
        invariant Bindings(t.links, fs, 0) == bound + Bindings(t.links[k..], fs, position)
      {
        BindingsStep(t.links, fs, k, position);
        var found := FindFit(t.links[k], fs, position);
        var link;
        if found.Some? {
          matchedAny := true;
          link := ChainLink(fs[found.value].id, "");
          assert fs[found.value] in fs;
          position := found.value + 1;
        } else {
          var id := ids.Draw();
          link := ChainLink("", "pv-" + id);
        }
        SomeBoundMore(bound, found);
        BoundAsMore(bound, fs, links, found, link);
        bound, links := bound + [found], links + [link];
      }
      assert bound == Bindings(t.links, fs, 0);
      AnyBound(t, fs);
      if !matchedAny {
        ChainIsTold(t, fs, None);
        return None;
      }
      FirstLink(t, fs, links);
      ConfirmedAll(t, fs, links);
      var id := ids.Draw();
      var allConfirmed := forall i | 0 <= i < |links| :: links[i].IsConfirmed();
      var status := if allConfirmed then Confirmed
                    else if links[0].IsConfirmed() then PartiallyVerified
                    else Hypothesis;
      var severity := Composite(ConfirmedSeverities(links, ById(fs)));
      r := Some(AttackChain("chain-" + t.id + "-" + id, t.id, links, status, severity));
      ChainIsTold(t, fs, r);
    }

    /** The maximum, INFO of nothing. */
    method Composite(ss: seq<Severity>) returns (top: Severity)
      ensures top == CompositeSeverity(ss)
      ensures ss != [] ==> top in ss && forall s | s in ss :: !Outranks(s, top)
      ensures ss == [] ==> top == Info
    {
      CompositeIsHighest(ss);
      if ss == [] {
        return Info;
      }
      top := ss[0];
      assert ss[..1][..0] == [];
      for i := 1 to |ss|
        invariant top == CompositeSeverity(ss[..i])
      {
        assert ss[..i + 1][..i] == ss[..i];
        if top.Rank() < ss[i].Rank() {
          top := ss[i];
        }
      }
      assert ss[..|ss|] == ss;
    }

    lemma NothingYet(fs: seq<Finding>)
      ensures !SomeBound([]) && BoundAs([], fs, [])
    {
    }

    lemma BoundAsMore(bound: seq<Option<nat>>, fs: seq<Finding>, links: seq<ChainLink>,
                      found: Option<nat>, link: ChainLink)
      requires BoundAs(bound, fs, links)
      requires if found.Some?
               then found.value < |fs| && link.IsConfirmed()
                    && link.confirmedFindingId == fs[found.value].id
               else !link.IsConfirmed()
      ensures BoundAs(bound + [found], fs, links + [link])
    {
    }

    lemma FirstLink(t: AttackChainTemplate, fs: seq<Finding>, links: seq<ChainLink>)
      requires t.Valid() && BoundAs(Bindings(t.links, fs, 0), fs, links)
      ensures links[0].IsConfirmed() <==> StartFits(t, fs)
    {
      hide Bindings, StartFits;
      StartBound(t, fs);
    }

    lemma ConfirmedAll(t: AttackChainTemplate, fs: seq<Finding>, links: seq<ChainLink>)
      requires BoundAs(Bindings(t.links, fs, 0), fs, links)
      ensures (forall i | 0 <= i < |links| :: links[i].IsConfirmed()) <==> Matches(t.links, fs)
    {
      hide Embeds, Bindings;
      GreedyIsComplete(t.links, fs, 0);
    }

    method HypothesizeFromFindings(fs: seq<Finding>) returns (cs: seq<AttackChain>)
      requires Valid() && forall f | f in fs :: f.Valid()
      modifies ids
      ensures ChainsOf(Yielding(templates, Validated(fs)), Validated(fs), cs)
    {
      hide ChainOf, AnyFits;
      var validated := FilterValidated(fs);
      cs := [];
      for k := 0 to |templates|
        invariant ChainsOf(Yielding(templates[..k], validated), validated, cs)
      {
        assert templates[..k + 1][..k] == templates[..k];
        assert templates[k] in templates;
        var c := MatchTemplate(templates[k], validated);
        if c.Some? {
          cs := cs + [c.value];
        }
      }
      assert templates[..|templates|] == templates;
    }

    method FilterValidated(fs: seq<Finding>) returns (vs: seq<Finding>)
      requires forall f | f in fs :: f.Valid()
      ensures vs == Validated(fs) && forall f | f in vs :: f.Valid()
    {
      vs := [];
      for k := 0 to |fs|
        invariant vs == Validated(fs[..k])
      {
        assert fs[..k + 1][..k] == fs[..k];
        if fs[k].validated {
          vs := vs + [fs[k]];
        }
      }
      assert fs[..|fs|] == fs;
      ValidatedMembers(fs);
    }

    method TasksFor(c: AttackChain) returns (r: Result<seq<Task>, ChainError>)
      ensures r == TasksOf(templates, c)
    {
      var t := FirstWith(templates, c.templateId);
      if t.None? {
        return Success([]);
      }
      var specs := t.value.links;
      if |specs| != |c.links| {
        return Failure(LengthMismatch);
      }
      var tasks := [];
      for k := 0 to |c.links|
        invariant tasks == TasksUpTo(c, specs, k)
      {
        if !c.links[k].IsConfirmed() {
          tasks := tasks + [Task(c.links[k].pendingKey, c.id, specs[k].cweAny, specs[k].assetPattern)];
        }
      }
      return Success(tasks);
    }

    method PendingVerificationTasks(cs: seq<AttackChain>) returns (r: Result<seq<Task>, ChainError>)
      ensures r == AllTasks(templates, cs)
    {
      var tasks := [];
      for k := 0 to |cs|
        invariant Success(tasks) == AllTasks(templates, cs[..k])
      {
        assert cs[..k + 1][..k] == cs[..k];
        var more := TasksFor(cs[k]);
        if more.Failure? {
          FailureStays(templates, cs, k + 1);
          return more;
        }
        tasks := tasks + more.value;
      }
      assert cs[..|cs|] == cs;
      return Success(tasks);
    }
  }

  /** A failed prefix fails the whole. */
  lemma {:induction false} FailureStays(ts: seq<AttackChainTemplate>, cs: seq<AttackChain>, n: nat)
    requires n <= |cs| && AllTasks(ts, cs[..n]).Failure?
    ensures AllTasks(ts, cs) == AllTasks(ts, cs[..n])
  {
    if n == |cs| {
      assert cs[..n] == cs;
    } else {
      assert cs[..|cs| - 1][..n] == cs[..n];
      FailureStays(ts, cs[..|cs| - 1], n);
    }
  }
}
